/**
 * Replay protection in the private relay: the nonce table (`private-relay/src/store.ts`) and the time window of a signed
 * request (`private-relay/src/sig.ts`).
 */
module Nonces {
  const SIG_WINDOW_MS := 300_000
  const NONCE_TTL_MS := 600_000

  datatype Key = Key(kid: string, nonce: string)

  /** The nonces seen, with the time each row lapses. */
  type Seen = map<Key, int>

  /** `DELETE FROM nonces WHERE exp <= ?` */
  function Dropped(seen: Seen, now: int): Seen {
    map k | k in seen && seen[k] > now :: seen[k]
  }

  /** `INSERT OR IGNORE`, and whether a row was inserted. */
  function Remember(seen: Seen, key: Key, now: int): (Seen, bool) {
    var kept := Dropped(seen, now);
    if key in kept then (kept, false) else (kept[key := now + NONCE_TTL_MS], true)
  }

  predicate InWindow(ts: int, now: int) {
    -SIG_WINDOW_MS <= now - ts <= SIG_WINDOW_MS
  }

  /** A signed request: checked against its timestamp at `checked`, remembered at `at`. */
  datatype Use = Use(key: Key, ts: int, checked: int, at: int)

  /** The clock never runs back, and a request is remembered after its check; one that fails it never reaches the table. */
  predicate Chronological(uses: seq<Use>) {
    && (forall i :: 0 <= i < |uses| ==> uses[i].checked <= uses[i].at)
    && (forall i, j :: 0 <= i <= j < |uses| ==> uses[i].at <= uses[j].at)
  }

  function After(uses: seq<Use>, n: nat): Seen
    requires n <= |uses|
  {
    if n == 0 then map[]
    else
      var seen, last := After(uses, n - 1), uses[n - 1];
      if InWindow(last.ts, last.checked) then Remember(seen, last.key, last.at).0 else seen
  }

  predicate Accepted(uses: seq<Use>, i: nat)
    requires i < |uses|
  {
    InWindow(uses[i].ts, uses[i].checked) && Remember(After(uses, i), uses[i].key, uses[i].at).1
  }

  /** A nonce accepted lately is still in the table. */
  lemma {:induction false} StillSeen(uses: seq<Use>, i: nat, n: nat)
    requires Chronological(uses) && i < n <= |uses| && Accepted(uses, i)
    requires uses[n - 1].at < uses[i].at + NONCE_TTL_MS
    ensures uses[i].key in After(uses, n) && After(uses, n)[uses[i].key] == uses[i].at + NONCE_TTL_MS
  {
    if i < n - 1 {
      assert uses[n - 2].at <= uses[n - 1].at;
      StillSeen(uses, i, n - 1);
    }
  }

  /** Two acceptances of one key's nonce are at least ten minutes apart. */
  lemma AcceptancesApart(uses: seq<Use>, i: nat, j: nat)
    requires Chronological(uses) && i < j < |uses| && uses[i].key == uses[j].key
    requires Accepted(uses, i) && Accepted(uses, j)
    ensures uses[j].at >= uses[i].at + NONCE_TTL_MS
  {
    if uses[j].at < uses[i].at + NONCE_TTL_MS {
      assert uses[j - 1].at <= uses[j].at;
      StillSeen(uses, i, j);
    }
  }

  /** Every row of the table comes from an acceptance. */
  lemma {:induction false} SeenWasAccepted(uses: seq<Use>, n: nat, key: Key) returns (i: nat)
    requires Chronological(uses) && n <= |uses| && key in After(uses, n)
    ensures i < n && uses[i].key == key && Accepted(uses, i) && After(uses, n)[key] == uses[i].at + NONCE_TTL_MS
  {
    var last := uses[n - 1];
    if key == last.key && Accepted(uses, n - 1) {
      i := n - 1;
    } else {
      i := SeenWasAccepted(uses, n - 1, key);
    }
  }

  /**
   * A request is accepted exactly when it is in its time window and no acceptance of the same key and nonce is less than
   * ten minutes old.
   */
  lemma AcceptedExactly(uses: seq<Use>, j: nat)
    requires Chronological(uses) && j < |uses|
    ensures Accepted(uses, j) <==>
      InWindow(uses[j].ts, uses[j].checked) && !exists i :: 0 <= i < j && uses[i].key == uses[j].key && Accepted(uses, i) && uses[j].at < uses[i].at + NONCE_TTL_MS
  {
    if Accepted(uses, j) {
      forall i | 0 <= i < j && uses[i].key == uses[j].key && Accepted(uses, i)
        ensures uses[j].at >= uses[i].at + NONCE_TTL_MS
      {
        AcceptancesApart(uses, i, j);
      }
    } else if InWindow(uses[j].ts, uses[j].checked) {
      var i := SeenWasAccepted(uses, j, uses[j].key);
    }
  }

  /**
   * One signed request accepted twice. Checked and remembered at one instant, that needs the two exact ends of its
   * window; otherwise the second use must have waited, between its check and the table, for all of the window that the
   * two uses left unused and for the first one's own wait.
   */
  lemma SignedOnce(uses: seq<Use>, i: nat, j: nat)
    requires Chronological(uses) && i < j < |uses|
    requires uses[i].key == uses[j].key && uses[i].ts == uses[j].ts && Accepted(uses, i) && Accepted(uses, j)
    ensures uses[i].checked == uses[i].at && uses[j].checked == uses[j].at ==>
      uses[i].at == uses[i].ts - SIG_WINDOW_MS && uses[j].at == uses[j].ts + SIG_WINDOW_MS
    ensures
      uses[j].at - uses[j].checked >=
        (uses[i].at - uses[i].checked) + (uses[i].checked - (uses[i].ts - SIG_WINDOW_MS)) + (uses[j].ts + SIG_WINDOW_MS - uses[j].checked)
  {
    AcceptancesApart(uses, i, j);
  }

  /** At the two exact ends a request is indeed accepted twice. */
  lemma EndsAcceptTwice(key: Key, ts: int)
    ensures
      var uses := [Use(key, ts, ts - SIG_WINDOW_MS, ts - SIG_WINDOW_MS), Use(key, ts, ts + SIG_WINDOW_MS, ts + SIG_WINDOW_MS)];
      Accepted(uses, 0) && Accepted(uses, 1)
  {
    var uses := [Use(key, ts, ts - SIG_WINDOW_MS, ts - SIG_WINDOW_MS), Use(key, ts, ts + SIG_WINDOW_MS, ts + SIG_WINDOW_MS)];
    assert After(uses, 0) == map[];
    assert After(uses, 1) == map[key := ts + SIG_WINDOW_MS];
  }
}
