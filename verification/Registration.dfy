/** The private relay's register handler (`private-relay/src/http.ts`): which windows, nonces and rows a request spends. */
module Registration {
  import opened Wrappers
  import opened SlidingWindow
  import N = Nonces

  /** The checked fields of a register body. */
  datatype Fields = Fields(boxPub: string, name: string, platform: string, device: Option<string>, version: string)

  datatype Computer = Computer(signPub: string, active: bool, fields: Fields, createdAt: int, updatedAt: int)

  /** A request whose signature and body have been checked. `id` is derived from `kid`; the three times are read in order. */
  datatype Request = Request(kid: string, nonce: string, id: string, fields: Fields, given: string, at: int, remembered: int, saved: int)

  datatype Answer = Registered | Forbidden | RateLimited | BadSignature

  datatype Desk = Desk(token: string, maxComputers: nat, enrollLimit: nat, rejectLimit: nat,
                       enrollments: seq<int>, rejections: seq<int>, computers: map<string, Computer>, nonces: N.Seen)

  /** An update keeps the row's key, platform, status and birth. */
  function Saved(computers: map<string, Computer>, q: Request): map<string, Computer> {
    if q.id in computers then
      var old_ := computers[q.id];
      computers[q.id := old_.(fields := q.fields.(platform := old_.fields.platform), updatedAt := q.saved)]
    else computers[q.id := Computer(q.kid, true, q.fields, q.saved, q.saved)]
  }

  function Finish(d: Desk, q: Request): (Desk, Answer) {
    var (nonces, fresh_) := N.Remember(d.nonces, N.Key(q.kid, q.nonce), q.remembered);
    if !fresh_ then (d.(nonces := nonces), BadSignature)
    else (d.(nonces := nonces, computers := Saved(d.computers, q)), Registered)
  }

  predicate TokenGiven(d: Desk, q: Request) { d.token != "" && q.given == d.token }

  function Handled(d: Desk, q: Request): (Desk, Answer) {
    if q.id in d.computers then if d.computers[q.id].active then Finish(d, q) else (d, Forbidden)
    else if !TokenGiven(d, q) then
      var (rejections, ok) := Taken(d.rejections, d.rejectLimit, q.at);
      (d.(rejections := rejections), if ok then Forbidden else RateLimited)
    else
      var (enrollments, ok) := Taken(d.enrollments, d.enrollLimit, q.at);
      var spent := d.(enrollments := enrollments);
      if !ok then (spent, RateLimited)
      else if |d.computers| >= d.maxComputers then (spent, Forbidden)
      else Finish(spent, q)
  }

  class Registrar {
    const token: string
    const maxComputers: nat
    const enrollments: Window
    const rejections: Window
    var computers: map<string, Computer>
    var nonces: N.Seen

    function View(): Desk
      reads this, enrollments, rejections
    {
      Desk(token, maxComputers, enrollments.limit, rejections.limit, enrollments.attempts, rejections.attempts, computers, nonces)
    }

    constructor (token: string, maxComputers: nat, newLimit: nat, rejectedLimit: nat)
      ensures View() == Desk(token, maxComputers, newLimit, rejectedLimit, [], [], map[], map[])
      ensures enrollments != rejections && fresh(enrollments) && fresh(rejections)
    {
      this.token := token;
      this.maxComputers := maxComputers;
      enrollments := new Window(newLimit);
      rejections := new Window(rejectedLimit);
      computers := map[];
      nonces := map[];
    }

    method Register(q: Request) returns (answer: Answer)
      requires enrollments != rejections
      modifies this, enrollments, rejections
      ensures (View(), answer) == Handled(old(View()), q)
    {
      if q.id in computers {
        if !computers[q.id].active {
          return Forbidden;
        }
      } else {
        if token == "" || q.given != token {
          var ok := rejections.Take(q.at);
          return if ok then Forbidden else RateLimited;
        }
        var ok := enrollments.Take(q.at);
        if !ok {
          return RateLimited;
        }
        if |computers| >= maxComputers {
          return Forbidden;
        }
      }
      var fresh_ := RememberNonce(q.kid, q.nonce, q.remembered);
      if !fresh_ {
        return BadSignature;
      }
      computers := Saved(computers, q);
      return Registered;
    }

    method RememberNonce(kid: string, nonce: string, now: int) returns (ok: bool)
      modifies `nonces
      ensures (nonces, ok) == N.Remember(old(nonces), N.Key(kid, nonce), now)
    {
      nonces := map k | k in nonces && nonces[k] > now :: nonces[k];
      ok := N.Key(kid, nonce) !in nonces;
      if ok {
        nonces := nonces[N.Key(kid, nonce) := now + N.NONCE_TTL_MS];
      }
    }
  }

  // ---- runs ----

  function After(d: Desk, qs: seq<Request>): Desk {
    if qs == [] then d else Handled(After(d, qs[..|qs| - 1]), qs[|qs| - 1]).0
  }

  /** The requests that reached the enrolment window: an unknown computer's with the right token. */
  function Enrolling(d: Desk, qs: seq<Request>): (r: seq<int>)
    ensures |r| <= |qs|
  {
    if qs == [] then []
    else
      var before, q := After(d, qs[..|qs| - 1]), qs[|qs| - 1];
      Enrolling(d, qs[..|qs| - 1]) + if q.id !in before.computers && TokenGiven(before, q) then [q.at] else []
  }

  lemma EmptyLog(limit: nat)
    ensures Log(limit, [], 0) == []
  {
  }

  lemma LogAppend(limit: nat, times: seq<int>, at: int)
    ensures Log(limit, times + [at], |times| + 1) == Taken(Log(limit, times, |times|), limit, at).0
  {
    LogPrefix(limit, times, at, |times|);
  }

  lemma {:induction false} LogPrefix(limit: nat, times: seq<int>, at: int, n: nat)
    requires n <= |times|
    ensures Log(limit, times + [at], n) == Log(limit, times, n)
  {
    if n > 0 {
      LogPrefix(limit, times, at, n - 1);
    }
  }

  /** What one request does to the enrolment window and the settings. */
  lemma HandledSpends(d: Desk, q: Request)
    ensures
      var e := Handled(d, q).0;
      && e.enrollments == (if q.id !in d.computers && TokenGiven(d, q) then Taken(d.enrollments, d.enrollLimit, q.at).0 else d.enrollments)
      && e.enrollLimit == d.enrollLimit && e.token == d.token && e.maxComputers == d.maxComputers
  {
    hide Taken, Saved, N.Remember;
  }

  /**
   * Over any requests the enrolment window is what the enrolling requests alone make of it: a wrong token, and a known
   * computer's refresh, never use it up.
   */
  lemma {:induction false} OnlyEnrollingSpends(d: Desk, qs: seq<Request>)
    requires d.enrollments == []
    ensures After(d, qs).enrollments == Log(d.enrollLimit, Enrolling(d, qs), |Enrolling(d, qs)|)
    ensures After(d, qs).enrollLimit == d.enrollLimit && After(d, qs).token == d.token && After(d, qs).maxComputers == d.maxComputers
  {
    hide Handled, Taken, Log;
    if qs == [] {
      EmptyLog(d.enrollLimit);
    } else {
      OnlyEnrollingSpends(d, qs[..|qs| - 1]);
      HandledSpends(After(d, qs[..|qs| - 1]), qs[|qs| - 1]);
      var before, q := After(d, qs[..|qs| - 1]), qs[|qs| - 1];
      if q.id !in before.computers && TokenGiven(before, q) {
        LogAppend(d.enrollLimit, Enrolling(d, qs[..|qs| - 1]), q.at);
      } else {
        assert Enrolling(d, qs) == Enrolling(d, qs[..|qs| - 1]);
      }
    }
  }

  lemma RowKept(d: Desk, q: Request, id: string)
    ensures |Handled(d, q).0.computers| <= |d.computers| || |Handled(d, q).0.computers| <= d.maxComputers
    ensures id in d.computers ==>
      var c := Handled(d, q).0.computers;
      id in c && c[id].signPub == d.computers[id].signPub && c[id].active == d.computers[id].active
      && c[id].fields.platform == d.computers[id].fields.platform && c[id].createdAt == d.computers[id].createdAt
  {
    hide Taken, N.Remember;
    assert q.id in d.computers ==> Saved(d.computers, q).Keys == d.computers.Keys;
  }

  /** The table never outgrows its limit, and a computer keeps the key, platform and status it was added with. */
  lemma {:induction false} TableKept(d: Desk, qs: seq<Request>, id: string)
    requires |d.computers| <= d.maxComputers && d.enrollments == []
    ensures |After(d, qs).computers| <= d.maxComputers
    ensures id in d.computers ==>
      var c := After(d, qs).computers;
      id in c && c[id].signPub == d.computers[id].signPub && c[id].active == d.computers[id].active
      && c[id].fields.platform == d.computers[id].fields.platform && c[id].createdAt == d.computers[id].createdAt
  {
    hide Handled;
    if qs != [] {
      TableKept(d, qs[..|qs| - 1], id);
      OnlyEnrollingSpends(d, qs[..|qs| - 1]);
      RowKept(After(d, qs[..|qs| - 1]), qs[|qs| - 1], id);
    }
  }
}
