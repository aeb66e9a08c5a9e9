/**
 * `Array.prototype.sort` with a comparator, which is stable: an insertion
 * sort that moves an element left only past elements it must precede.
 * `before(a, b)` holds when the comparator puts `a` strictly ahead of `b`.
 */
module Sorting {

  /** The comparators used here order by a key: `before` is asymmetric and
      negatively transitive (a strict weak order). */
  ghost predicate StrictWeakOrder<T(!new)>(before: (T, T) -> bool) {
    && (forall a, b :: before(a, b) ==> !before(b, a))
    && (forall a, b, c :: before(a, c) ==> before(a, b) || before(b, c))
  }

  /** No element is strictly ahead of an element placed before it. */
  predicate SortedBy<T>(r: seq<T>, before: (T, T) -> bool) {
    forall i, j :: 0 <= i < j < |r| ==> !before(r[j], r[i])
  }

  /** Place `x` after every element of `r` it does not have to precede. */
  function Insert<T>(x: T, r: seq<T>, before: (T, T) -> bool): (q: seq<T>)
    ensures multiset(q) == multiset(r) + multiset{x}
  {
    if r == [] then [x]
    else if before(x, r[|r| - 1]) then
      assert r == r[..|r| - 1] + [r[|r| - 1]];
      Insert(x, r[..|r| - 1], before) + [r[|r| - 1]]
    else r + [x]
  }

  /** The stable sort of `s`. */
  function SortBy<T>(s: seq<T>, before: (T, T) -> bool): (r: seq<T>)
    ensures multiset(r) == multiset(s)
  {
    if s == [] then []
    else
      assert s == s[..|s| - 1] + [s[|s| - 1]];
      Insert(s[|s| - 1], SortBy(s[..|s| - 1], before), before)
  }

  /** Every element of the insertion is `x` or comes from `r`. */
  lemma InsertedFrom<T>(x: T, r: seq<T>, before: (T, T) -> bool, i: int)
    requires 0 <= i < |Insert(x, r, before)|
    ensures Insert(x, r, before)[i] == x || Insert(x, r, before)[i] in r
  {
    var q := Insert(x, r, before);
    assert q[i] in multiset(q);
  }

  lemma {:induction false} InsertSorted<T(!new)>(x: T, r: seq<T>, before: (T, T) -> bool)
    requires StrictWeakOrder(before)
    requires SortedBy(r, before)
    ensures SortedBy(Insert(x, r, before), before)
  {
    if r != [] && before(x, r[|r| - 1]) {
      var last := r[|r| - 1];
      var init := r[..|r| - 1];
      InsertSorted(x, init, before);
      var p := Insert(x, init, before);
      forall i | 0 <= i < |p| ensures !before(last, p[i]) {
        InsertedFrom(x, init, before, i);
        if p[i] != x {
          var k :| 0 <= k < |init| && init[k] == p[i];
          assert r[k] == p[i];
        }
      }
      assert Insert(x, r, before) == p + [last];
    }
  }

  /** The result is ordered and holds the same elements. */
  lemma {:induction false} SortBySorted<T(!new)>(s: seq<T>, before: (T, T) -> bool)
    requires StrictWeakOrder(before)
    ensures SortedBy(SortBy(s, before), before)
    ensures multiset(SortBy(s, before)) == multiset(s)
  {
    if s != [] {
      SortBySorted(s[..|s| - 1], before);
      InsertSorted(s[|s| - 1], SortBy(s[..|s| - 1], before), before);
    }
  }
}
