/**
 * `Array.prototype.sort` with a comparator. The ECMAScript sort is stable, and its
 * result is determined when the comparator is consistent; the model is a stable
 * insertion sort, proved to give a sorted permutation that keeps ties in input order.
 */
module Sorting {

  /**
   * A consistent comparator: the sign of `cmp(a, b)` is the opposite of that of
   * `cmp(b, a)`, and "comes no later than" (`cmp <= 0`) is transitive.
   */
  ghost predicate IsConsistent<T(!new)>(cmp: (T, T) -> real) {
    (forall a, b :: cmp(a, b) < 0.0 <==> cmp(b, a) > 0.0)
    && (forall a, b, c :: cmp(a, b) <= 0.0 && cmp(b, c) <= 0.0 ==> cmp(a, c) <= 0.0)
  }

  /** Every element comes no later than every element after it. */
  ghost predicate Sorted<T>(s: seq<T>, cmp: (T, T) -> real) {
    forall i, j :: 0 <= i < j < |s| ==> cmp(s[i], s[j]) <= 0.0
  }

  /** Puts `x` in front of the first element it does not come after. */
  function Insert<T>(x: T, s: seq<T>, cmp: (T, T) -> real): (r: seq<T>)
    ensures multiset(r) == multiset(s) + multiset{x}
  {
    if s == [] || cmp(x, s[0]) <= 0.0 then [x] + s
    else
      assert s == [s[0]] + s[1..];
      [s[0]] + Insert(x, s[1..], cmp)
  }

  /** `[...s].sort(cmp)`. */
  function SortBy<T>(s: seq<T>, cmp: (T, T) -> real): (r: seq<T>)
    ensures multiset(r) == multiset(s)
    ensures |r| == |s|
  {
    if s == [] then []
    else
      assert s == [s[0]] + s[1..];
      Insert(s[0], SortBy(s[1..], cmp), cmp)
  }

  /** The elements of `s` that tie with `e` (compare as 0 against it), in order. */
  function Ties<T>(s: seq<T>, cmp: (T, T) -> real, e: T): seq<T> {
    if s == [] then []
    else if cmp(s[0], e) == 0.0 then [s[0]] + Ties(s[1..], cmp, e)
    else Ties(s[1..], cmp, e)
  }

  /** Under a consistent comparator, tying is an equivalence. */
  lemma TieTransitive<T(!new)>(cmp: (T, T) -> real, a: T, b: T, e: T)
    requires IsConsistent(cmp)
    requires cmp(a, e) == 0.0 && cmp(b, e) == 0.0
    ensures cmp(a, b) == 0.0
  {
    assert cmp(e, b) == 0.0 && cmp(e, a) == 0.0;
    assert cmp(a, b) <= 0.0;
    assert cmp(b, a) <= 0.0;
  }

  lemma {:induction false} InsertSorted<T(!new)>(x: T, s: seq<T>, cmp: (T, T) -> real)
    requires IsConsistent(cmp) && Sorted(s, cmp)
    ensures Sorted(Insert(x, s, cmp), cmp)
  {
    if s == [] || cmp(x, s[0]) <= 0.0 {
      forall j | 0 <= j < |s| ensures cmp(x, s[j]) <= 0.0 {
        assert cmp(s[0], s[j]) <= 0.0 || j == 0;
      }
      ConsSorted(x, s, cmp);
    } else {
      InsertSorted(x, s[1..], cmp);
      HeadBeforeInsert(x, s, cmp);
      ConsSorted(s[0], Insert(x, s[1..], cmp), cmp);
    }
  }

  /** An element that comes no later than every element of a sorted sequence can go in front. */
  lemma ConsSorted<T>(y: T, t: seq<T>, cmp: (T, T) -> real)
    requires Sorted(t, cmp) && forall j :: 0 <= j < |t| ==> cmp(y, t[j]) <= 0.0
    ensures Sorted([y] + t, cmp)
  {
    var r := [y] + t;
    forall i, j | 0 <= i < j < |r| ensures cmp(r[i], r[j]) <= 0.0 {
      assert r[j] == t[j - 1];
      if i > 0 {
        assert r[i] == t[i - 1];
      }
    }
  }

  /** Inserting adds only the inserted element. */
  lemma InsertMembers<T>(x: T, s: seq<T>, cmp: (T, T) -> real, y: T)
    requires y in Insert(x, s, cmp)
    ensures y == x || y in s
  {
    assert y in multiset(Insert(x, s, cmp));
  }

  /** When `x` goes after the head, the head comes no later than anything it is followed by. */
  lemma HeadBeforeInsert<T(!new)>(x: T, s: seq<T>, cmp: (T, T) -> real)
    requires IsConsistent(cmp) && Sorted(s, cmp) && s != [] && cmp(x, s[0]) > 0.0
    ensures forall j :: 0 <= j < |Insert(x, s[1..], cmp)| ==> cmp(s[0], Insert(x, s[1..], cmp)[j]) <= 0.0
  {
    var t := Insert(x, s[1..], cmp);
    forall j | 0 <= j < |t| ensures cmp(s[0], t[j]) <= 0.0 {
      InsertMembers(x, s[1..], cmp, t[j]);
      if t[j] != x {
        var k :| 0 <= k < |s[1..]| && s[1..][k] == t[j];
        assert s[k + 1] == t[j];
      }
    }
  }

  /** The result of the sort is sorted. */
  lemma {:induction false} SortByIsSorted<T(!new)>(s: seq<T>, cmp: (T, T) -> real)
    requires IsConsistent(cmp)
    ensures Sorted(SortBy(s, cmp), cmp)
  {
    if s != [] {
      SortByIsSorted(s[1..], cmp);
      InsertSorted(s[0], SortBy(s[1..], cmp), cmp);
    }
  }

  lemma {:induction false} InsertTies<T(!new)>(x: T, s: seq<T>, cmp: (T, T) -> real, e: T)
    requires IsConsistent(cmp)
    ensures Ties(Insert(x, s, cmp), cmp, e)
         == if cmp(x, e) == 0.0 then [x] + Ties(s, cmp, e) else Ties(s, cmp, e)
  {
    if s == [] || cmp(x, s[0]) <= 0.0 {
      assert ([x] + s)[1..] == s;
    } else {
      InsertTies(x, s[1..], cmp, e);
      assert ([s[0]] + Insert(x, s[1..], cmp))[1..] == Insert(x, s[1..], cmp);
      if cmp(x, e) == 0.0 && cmp(s[0], e) == 0.0 {
        TieTransitive(cmp, x, s[0], e);
      }
    }
  }

  /** Stability: the elements that tie with any `e` keep their input order. */
  lemma {:induction false} SortByStable<T(!new)>(s: seq<T>, cmp: (T, T) -> real, e: T)
    requires IsConsistent(cmp)
    ensures Ties(SortBy(s, cmp), cmp, e) == Ties(s, cmp, e)
  {
    if s != [] {
      SortByStable(s[1..], cmp, e);
      InsertTies(s[0], SortBy(s[1..], cmp), cmp, e);
    }
  }

  /**
   * Cutting a sorted sequence after `k` elements drops only elements that do not
   * come before the last one kept.
   */
  lemma SortedPrefixBound<T>(s: seq<T>, cmp: (T, T) -> real, k: nat)
    requires Sorted(s, cmp) && 0 < k <= |s|
    ensures forall x :: x in multiset(s) - multiset(s[..k]) ==> cmp(s[k - 1], x) <= 0.0
  {
    assert s == s[..k] + s[k..];
    assert multiset(s) - multiset(s[..k]) == multiset(s[k..]);
    forall x | x in multiset(s[k..]) ensures cmp(s[k - 1], x) <= 0.0 {
      var j :| 0 <= j < |s[k..]| && s[k..][j] == x;
      assert s[k + j] == x;
    }
  }

  /** The ties kept by a prefix are a prefix of all the ties: cutting keeps the earliest. */
  lemma {:induction false} TiesOfPrefix<T>(s: seq<T>, cmp: (T, T) -> real, e: T, k: nat)
    requires k <= |s|
    ensures Ties(s[..k], cmp, e) <= Ties(s, cmp, e)
  {
    if k > 0 {
      assert s[..k][1..] == s[1..][..k - 1];
      TiesOfPrefix(s[1..], cmp, e, k - 1);
    }
  }

  /** A prefix of a sorted sequence holds the elements that come first: no dropped one comes before a kept one. */
  lemma SortedPrefixFirst<T(!new)>(s: seq<T>, cmp: (T, T) -> real, k: nat)
    requires IsConsistent(cmp) && Sorted(s, cmp) && k <= |s|
    ensures forall x, i :: x in multiset(s) - multiset(s[..k]) && 0 <= i < k ==> cmp(s[i], x) <= 0.0
  {
    if k > 0 {
      SortedPrefixBound(s, cmp, k);
      forall x, i | x in multiset(s) - multiset(s[..k]) && 0 <= i < k ensures cmp(s[i], x) <= 0.0 {
        assert i == k - 1 || cmp(s[i], s[k - 1]) <= 0.0;
      }
    }
  }

  lemma PrefixMultiset<T>(s: seq<T>, k: nat)
    requires k <= |s|
    ensures multiset(s[..k]) <= multiset(s)
  {
    assert s == s[..k] + s[k..];
  }

  /** Sorting a sequence that is already sorted changes nothing. */
  lemma {:induction false} SortBySortedIdentity<T>(s: seq<T>, cmp: (T, T) -> real)
    requires Sorted(s, cmp)
    ensures SortBy(s, cmp) == s
  {
    if s != [] {
      SortBySortedIdentity(s[1..], cmp);
      assert [s[0]] + s[1..] == s;
    }
  }

  /** Under a consistent comparator, order between neighbours is order throughout. */
  lemma {:induction false} SortedFromNeighbours<T(!new)>(s: seq<T>, cmp: (T, T) -> real)
    requires IsConsistent(cmp)
    requires forall i :: 0 <= i < |s| - 1 ==> cmp(s[i], s[i + 1]) <= 0.0
    ensures Sorted(s, cmp)
  {
    if |s| > 1 {
      SortedFromNeighbours(s[1..], cmp);
      forall j | 1 <= j < |s| ensures cmp(s[0], s[j]) <= 0.0 {
        assert j == 1 || cmp(s[1], s[j]) <= 0.0 by { assert s[1..][0] == s[1] && s[1..][j - 1] == s[j]; }
      }
    }
  }
}
