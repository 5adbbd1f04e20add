/** Selecting from ordered rows, as the SQL statements do. */
module Sequences {
  import opened Wrappers

  /** The elements `keep` holds of, in order. */
  function Filter<T>(s: seq<T>, keep: T -> bool): (r: seq<T>)
    ensures |r| <= |s|
    ensures forall x :: x in r ==> x in s && keep(x)
    ensures forall x :: x in s && keep(x) ==> x in r
  {
    if s == [] then []
    else
      var front := Filter(s[..|s| - 1], keep);
      if keep(s[|s| - 1]) then front + [s[|s| - 1]] else front
  }

  /** The first element `keep` holds of: `ORDER BY ... LIMIT 1`. */
  function First<T>(s: seq<T>, keep: T -> bool): (r: Option<T>)
    ensures r.None? <==> forall x :: x in s ==> !keep(x)
    ensures r.Some? ==> r.value in s && keep(r.value)
  {
    var found := Filter(s, keep);
    if found == [] then None else assert found[0] in found; Some(found[0])
  }

  function Map<A, B>(s: seq<A>, f: A -> B): (r: seq<B>)
    ensures |r| == |s|
    ensures forall i :: 0 <= i < |s| ==> r[i] == f(s[i])
  {
    seq(|s|, i requires 0 <= i < |s| => f(s[i]))
  }

  function Sum<T>(s: seq<T>, size: T -> nat): nat {
    if s == [] then 0 else Sum(s[..|s| - 1], size) + size(s[|s| - 1])
  }

  /** Sizes that agree on the elements add up alike. */
  lemma {:induction false} SumSame<T>(s: seq<T>, a: T -> nat, b: T -> nat)
    requires forall x :: x in s ==> a(x) == b(x)
    ensures Sum(s, a) == Sum(s, b)
  {
    if s != [] {
      SumSame(s[..|s| - 1], a, b);
    }
  }

  lemma FilterAppend<T>(s: seq<T>, x: T, keep: T -> bool)
    ensures Filter(s + [x], keep) == if keep(x) then Filter(s, keep) + [x] else Filter(s, keep)
  {
    assert (s + [x])[..|s|] == s;
  }

  lemma SumAppend<T>(s: seq<T>, x: T, size: T -> nat)
    ensures Sum(s + [x], size) == Sum(s, size) + size(x)
  {
    assert (s + [x])[..|s|] == s;
  }

  /** Predicates that agree on the elements select the same rows. */
  lemma {:induction false} FilterSame<T>(s: seq<T>, p: T -> bool, q: T -> bool)
    requires forall x :: x in s ==> p(x) == q(x)
    ensures Filter(s, p) == Filter(s, q)
  {
    if s != [] {
      FilterSame(s[..|s| - 1], p, q);
    }
  }

  /** Two selections in a row are one selection by both. */
  lemma {:induction false} FilterTwice<T>(s: seq<T>, p: T -> bool, q: T -> bool, both: T -> bool)
    requires forall x :: x in s ==> both(x) == (p(x) && q(x))
    ensures Filter(Filter(s, p), q) == Filter(s, both)
  {
    if s != [] {
      var front, last := s[..|s| - 1], s[|s| - 1];
      FilterTwice(front, p, q, both);
      FilterAppend(Filter(front, p), last, q);
    }
  }

  lemma FilterCommutes<T>(s: seq<T>, p: T -> bool, q: T -> bool)
    ensures Filter(Filter(s, p), q) == Filter(Filter(s, q), p)
  {
    var both := x => p(x) && q(x);
    FilterTwice(s, p, q, both);
    FilterTwice(s, q, p, both);
  }

  lemma {:induction false} FilterAll<T>(s: seq<T>, keep: T -> bool)
    requires forall x :: x in s ==> keep(x)
    ensures Filter(s, keep) == s
  {
    if s != [] {
      FilterAll(s[..|s| - 1], keep);
    }
  }

  lemma {:induction false} FilterNone<T>(s: seq<T>, keep: T -> bool)
    requires forall x :: x in s ==> !keep(x)
    ensures Filter(s, keep) == []
  {
    if s != [] {
      FilterNone(s[..|s| - 1], keep);
    }
  }

  lemma MapAppend<A, B>(s: seq<A>, x: A, f: A -> B)
    ensures Map(s + [x], f) == Map(s, f) + [f(x)]
  {
  }

  /** Selecting and then converting is converting and then selecting. */
  lemma {:induction false} FilterThrough<A, B>(s: seq<A>, f: A -> B, p: A -> bool, q: B -> bool)
    requires forall x :: x in s ==> p(x) == q(f(x))
    ensures Map(Filter(s, p), f) == Filter(Map(s, f), q)
    decreases |s|, 1
  {
    if s == [] {
      assert Map(s, f) == [] && Map(Filter(s, p), f) == [];
    } else {
      FilterThroughFront(s, f, p, q);
    }
  }

  lemma {:induction false} FilterThroughFront<A, B>(s: seq<A>, f: A -> B, p: A -> bool, q: B -> bool)
    requires s != [] && forall x :: x in s ==> p(x) == q(f(x))
    ensures Map(Filter(s, p), f) == Filter(Map(s, f), q)
    decreases |s|, 0
  {
    hide Filter, Map;
    var front, last := s[..|s| - 1], s[|s| - 1];
    assert s == front + [last] && last in s;
    FilterThrough(front, f, p, q);
    FilterAppend(front, last, p);
    MapAppend(front, last, f);
    MapAppend(Filter(front, p), last, f);
    FilterAppend(Map(front, f), f(last), q);
  }

  /** Updating rows in place commutes with a selection the update does not affect. */
  lemma FilterMap<T>(s: seq<T>, f: T -> T, keep: T -> bool)
    requires forall x :: x in s ==> keep(f(x)) == keep(x)
    ensures Filter(Map(s, f), keep) == Map(Filter(s, keep), f)
  {
    hide Filter, Map;
    FilterThrough(s, f, keep, keep);
  }

  lemma {:induction false} SumMap<T>(s: seq<T>, f: T -> T, size: T -> nat)
    requires forall x :: x in s ==> size(f(x)) == size(x)
    ensures Sum(Map(s, f), size) == Sum(s, size)
  {
    if s != [] {
      var front, last := s[..|s| - 1], s[|s| - 1];
      SumMap(front, f, size);
      assert s == front + [last];
      MapAppend(front, last, f);
      SumAppend(Map(front, f), f(last), size);
    }
  }

  /** A selection is never heavier than the whole. */
  lemma {:induction false} SumFilter<T>(s: seq<T>, keep: T -> bool, size: T -> nat)
    ensures Sum(Filter(s, keep), size) <= Sum(s, size)
  {
    if s != [] {
      var front, last := s[..|s| - 1], s[|s| - 1];
      SumFilter(front, keep, size);
      SumAppend(Filter(front, keep), last, size);
    }
  }

  /** The first selected element is the one no other selected one comes before. */
  lemma {:induction false} FirstAt<T>(s: seq<T>, keep: T -> bool, j: nat)
    requires j < |s| && keep(s[j]) && forall k :: 0 <= k < j ==> !keep(s[k])
    ensures First(s, keep) == Some(s[j])
    decreases |s|
  {
    var front := s[..|s| - 1];
    if j < |s| - 1 {
      FirstAt(front, keep, j);
    } else {
      FilterNone(front, keep);
    }
  }

  // ---- rows ordered by a key ----

  predicate Ascending<T>(s: seq<T>, key: T -> nat) {
    forall i, j :: 0 <= i < j < |s| ==> key(s[i]) < key(s[j])
  }

  lemma {:induction false} FilterAscending<T>(s: seq<T>, keep: T -> bool, key: T -> nat)
    requires Ascending(s, key)
    ensures Ascending(Filter(s, keep), key)
  {
    if s != [] {
      var front, last := s[..|s| - 1], s[|s| - 1];
      FilterAscending(front, keep, key);
      var f := Filter(front, keep);
      forall i | 0 <= i < |f|
        ensures key(f[i]) < key(last)
      {
        assert f[i] in f;
      }
    }
  }

  /** The first selected row has the least key of the selected rows. */
  lemma FirstIsLeast<T>(s: seq<T>, keep: T -> bool, key: T -> nat, x: T)
    requires Ascending(s, key) && x in s && keep(x)
    ensures First(s, keep).Some? && key(First(s, keep).value) <= key(x)
    ensures key(First(s, keep).value) == key(x) ==> First(s, keep).value == x
  {
    FilterAscending(s, keep, key);
    var f := Filter(s, keep);
    assert x in f;
    var i :| 0 <= i < |f| && f[i] == x;
  }

  /** Rows under ascending numbers, none above `last`: what AUTOINCREMENT gives. */
  ghost predicate Serial<T>(s: seq<T>, key: T -> nat, last: nat) {
    Ascending(s, key) && forall x :: x in s ==> 1 <= key(x) <= last
  }

  lemma FilterSerial<T>(s: seq<T>, keep: T -> bool, key: T -> nat, last: nat)
    requires Serial(s, key, last)
    ensures Serial(Filter(s, keep), key, last)
  {
    FilterAscending(s, keep, key);
  }

  lemma AppendSerial<T>(s: seq<T>, x: T, key: T -> nat, last: nat)
    requires Serial(s, key, last) && key(x) == last + 1
    ensures Serial(s + [x], key, last + 1)
  {
    forall i | 0 <= i < |s|
      ensures key(s[i]) <= last
    {
      assert s[i] in s;
    }
  }

  /** Where an element of the updated rows came from. */
  lemma Restated<A, B>(s: seq<A>, f: A -> B, y: B) returns (x: A)
    requires y in Map(s, f)
    ensures x in s && f(x) == y
  {
    var i :| 0 <= i < |s| && Map(s, f)[i] == y;
    x := s[i];
  }

  lemma MapSerial<T>(s: seq<T>, f: T -> T, key: T -> nat, last: nat)
    requires Serial(s, key, last) && forall x :: x in s ==> key(f(x)) == key(x)
    ensures Serial(Map(s, f), key, last)
  {
    forall y | y in Map(s, f)
      ensures 1 <= key(y) <= last
    {
      var x := Restated(s, f, y);
    }
    forall i, j | 0 <= i < j < |s|
      ensures key(f(s[i])) < key(f(s[j]))
    {
      assert s[i] in s && s[j] in s;
    }
  }

  /** Equal keys mean the same row. */
  lemma KeysTellApart<T>(s: seq<T>, key: T -> nat, x: T, y: T)
    requires Ascending(s, key) && x in s && y in s && key(x) == key(y)
    ensures x == y
  {
    var i :| 0 <= i < |s| && s[i] == x;
    var j :| 0 <= j < |s| && s[j] == y;
  }
}
