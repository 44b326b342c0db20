/**
 Stable sorting by a numeric key and filtering of a reference order: the two
 views of "keep the hits in priority order" that the classifier relies on.
 */
module Ranking {
  import opened Text

  predicate Distinct<T(==)>(s: seq<T>) {
    forall i, j :: 0 <= i < j < |s| ==> s[i] != s[j]
  }

  /** Keys never decrease along `s`. */
  predicate SortedBy<T>(key: T -> nat, s: seq<T>) {
    forall i, j :: 0 <= i < j < |s| ==> key(s[i]) <= key(s[j])
  }

  /** Keys strictly increase along `s`. */
  predicate StrictlyBy<T>(key: T -> nat, s: seq<T>) {
    forall i, j :: 0 <= i < j < |s| ==> key(s[i]) < key(s[j])
  }

  /**
   Inserts `x` before the first element whose key is not smaller; `x` therefore
   stays ahead of elements with an equal key, which keeps the sort stable.
   */
  function Insert<T>(key: T -> nat, x: T, s: seq<T>): (r: seq<T>)
    ensures SortedBy(key, s) ==> SortedBy(key, r)
    ensures multiset(r) == multiset(s) + multiset{x}
  {
    if s == [] then [x]
    else if key(x) <= key(s[0]) then
      assert SortedBy(key, s) ==> forall k :: 0 <= k < |s| ==> key(s[0]) <= key(s[k]);
      [x] + s
    else
      var rest := Insert(key, x, s[1..]);
      assert s == [s[0]] + s[1..];
      assert multiset(rest) == multiset(s[1..]) + multiset{x};
      var r := [s[0]] + rest;
      assert SortedBy(key, s) ==> SortedBy(key, r) by {
        if SortedBy(key, s) {
          SortedCons(key, s, x, rest);
        }
      }
      r
  }

  /** Putting a smaller head in front of a sorted permutation of the tail keeps it sorted. */
  lemma SortedCons<T>(key: T -> nat, s: seq<T>, x: T, rest: seq<T>)
    requires SortedBy(key, s) && s != [] && key(s[0]) < key(x)
    requires SortedBy(key, rest) && multiset(rest) == multiset(s[1..]) + multiset{x}
    ensures SortedBy(key, [s[0]] + rest)
  {
    forall k | 0 <= k < |rest| ensures key(s[0]) <= key(rest[k]) {
      assert rest[k] in multiset(rest);
      if rest[k] != x {
        assert rest[k] in multiset(s[1..]);
        var j :| 0 <= j < |s[1..]| && s[1..][j] == rest[k];
        assert s[j + 1] == rest[k];
      }
    }
    var r := [s[0]] + rest;
    forall i, j | 0 <= i < j < |r| ensures key(r[i]) <= key(r[j]) {
      assert r[j] == rest[j - 1];
      if i > 0 {
        assert r[i] == rest[i - 1];
      }
    }
  }

  /** Python's stable `sorted(s, key=key)`: a permutation of `s` with non-decreasing keys. */
  function SortBy<T>(key: T -> nat, s: seq<T>): (r: seq<T>)
    ensures SortedBy(key, r)
    ensures multiset(r) == multiset(s)
  {
    if s == [] then []
    else
      assert s == [s[0]] + s[1..];
      Insert(key, s[0], SortBy(key, s[1..]))
  }

  /** The elements of `order` that belong to `keep`, in the order of `order`. */
  function Filter<T(==,!new)>(order: seq<T>, keep: set<T>): (r: seq<T>)
    ensures forall t :: t in r <==> t in order && t in keep
  {
    if order == [] then []
    else
      var rest := Filter(order[1..], keep);
      if order[0] in keep then [order[0]] + rest else rest
  }

  /** Every element after the head of a strictly ordered sequence has a larger key. */
  lemma HeadIsLeast<T>(key: T -> nat, s: seq<T>)
    requires StrictlyBy(key, s) && s != []
    ensures StrictlyBy(key, s[1..])
    ensures forall t :: t in s[1..] ==> key(s[0]) < key(t)
  {
    forall t | t in s[1..] ensures key(s[0]) < key(t) {
      var j :| 0 <= j < |s[1..]| && s[1..][j] == t;
      assert s[j + 1] == t;
    }
  }

  /** Filtering a strictly ordered sequence keeps it strictly ordered. */
  lemma {:induction false} FilterKeepsOrder<T(!new)>(key: T -> nat, order: seq<T>, keep: set<T>)
    requires StrictlyBy(key, order)
    ensures StrictlyBy(key, Filter(order, keep))
  {
    if order != [] {
      HeadIsLeast(key, order);
      FilterKeepsOrder(key, order[1..], keep);
      var rest := Filter(order[1..], keep);
      if order[0] in keep {
        StrictCons(key, order[0], rest);
      }
    }
  }

  /** Putting an element with a smaller key in front keeps a sequence strictly ordered. */
  lemma StrictCons<T>(key: T -> nat, x: T, rest: seq<T>)
    requires StrictlyBy(key, rest)
    requires forall t :: t in rest ==> key(x) < key(t)
    ensures StrictlyBy(key, [x] + rest)
  {
    var r := [x] + rest;
    forall i, j | 0 <= i < j < |r| ensures key(r[i]) < key(r[j]) {
      assert r[j] == rest[j - 1];
      assert rest[j - 1] in rest;
      if i > 0 {
        assert r[i] == rest[i - 1];
      }
    }
  }

  /** A value absent from `order` makes no difference to what the filter keeps. */
  lemma {:induction false} FilterIgnoresAbsent<T(!new)>(order: seq<T>, keep: set<T>, x: T)
    requires x !in order
    ensures Filter(order, keep + {x}) == Filter(order, keep)
  {
    if order != [] {
      FilterIgnoresAbsent(order[1..], keep, x);
    }
  }

  /**
   Inserting a new element into a filtered, strictly ordered sequence is the
   same as filtering with that element added to the kept set.
   */
  lemma {:induction false} InsertIntoFilter<T(!new)>(key: T -> nat, order: seq<T>, keep: set<T>, x: T)
    requires StrictlyBy(key, order)
    requires x in order && x !in keep
    ensures Insert(key, x, Filter(order, keep)) == Filter(order, keep + {x})
  {
    FilterKeepsOrder(key, order, keep);
    HeadIsLeast(key, order);
    var h := order[0];
    var tail := order[1..];
    FilterKeepsOrder(key, tail, keep);
    if h == x {
      FilterIgnoresAbsent(tail, keep, x);
      var f := Filter(tail, keep);
      if f != [] {
        assert f[0] in tail;
      }
    } else {
      assert x in tail;
      InsertIntoFilter(key, tail, keep, x);
    }
  }

  /** Filtering by a set that keeps nothing of `order` yields nothing. */
  lemma {:induction false} FilterNothing<T(!new)>(order: seq<T>, keep: set<T>)
    requires forall t :: t in order ==> t !in keep
    ensures Filter(order, keep) == []
  {
    if order != [] {
      assert order[0] !in keep;
      FilterNothing(order[1..], keep);
    }
  }

  /**
   Sorting a repetition-free sequence whose elements all occur in a strictly
   ordered reference sequence yields the reference restricted to those elements.
   */
  lemma {:induction false} SortIsFilter<T(!new)>(key: T -> nat, order: seq<T>, s: seq<T>, keep: set<T>)
    requires StrictlyBy(key, order)
    requires Distinct(s)
    requires forall t :: t in s ==> t in order
    requires forall t :: t in s <==> t in keep
    ensures SortBy(key, s) == Filter(order, keep)
  {
    if s == [] {
      FilterNothing(order, keep);
    } else {
      var x := s[0];
      var rest := s[1..];
      var keep' := keep - {x};
      assert x !in rest;
      SortIsFilter(key, order, rest, keep');
      InsertIntoFilter(key, order, keep', x);
      assert keep' + {x} == keep;
    }
  }

  /**
   The first two elements of a strictly ordered reference restricted to a
   non-empty set of its members: one or two of them, strictly ordered, all from
   the set; every member of the set that is dropped has a larger key than every
   kept one, and nothing is dropped when fewer than two are kept.
   */
  lemma TopTwoFacts<T(!new)>(key: T -> nat, order: seq<T>, keep: set<T>)
    requires StrictlyBy(key, order)
    requires keep != {} && forall t :: t in keep ==> t in order
    ensures var r := TakeAtMost(Filter(order, keep), 2);
      && 1 <= |r| <= 2
      && StrictlyBy(key, r)
      && (forall t :: t in r ==> t in keep)
      && (forall c, t :: c in keep && c !in r && t in r ==> key(t) < key(c))
      && (|r| < 2 ==> forall c :: c in keep ==> c in r)
  {
    FilterKeepsOrder(key, order, keep);
    var f := Filter(order, keep);
    var r := TakeAtMost(f, 2);
    var c0 :| c0 in keep;
    assert c0 in f;
    forall c, t | c in keep && c !in r && t in r ensures key(t) < key(c) {
      assert c in f;
      var j :| 0 <= j < |f| && f[j] == c;
      var i :| 0 <= i < |r| && r[i] == t;
      assert f[i] == t;
      forall k | 0 <= k < |r| ensures f[k] != c {
        assert f[k] == r[k];
      }
      assert i < j;
    }
  }
}
