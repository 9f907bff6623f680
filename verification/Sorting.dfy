/** Python's stable list sort, by an order that may rank different elements alike. */
module Sorting {
  import opened Prelude

  ghost predicate Preorder<T(!new)>(le: (T, T) -> bool) {
    (forall x, y :: le(x, y) || le(y, x)) && (forall x, y, z :: le(x, y) && le(y, z) ==> le(x, z))
  }

  predicate Ascending<T>(s: seq<T>, le: (T, T) -> bool) {
    forall i, j :: 0 <= i < j < |s| ==> le(s[i], s[j])
  }

  /** The elements ranked like `k`. */
  function Alike<T>(le: (T, T) -> bool, k: T): T -> bool {
    x => le(x, k) && le(k, x)
  }

  function Insert<T>(s: seq<T>, x: T, le: (T, T) -> bool): seq<T> {
    if |s| == 0 || le(s[|s| - 1], x) then s + [x]
    else Insert(s[..|s| - 1], x, le) + [s[|s| - 1]]
  }

  function StableSort<T>(s: seq<T>, le: (T, T) -> bool): seq<T> {
    if |s| == 0 then [] else Insert(StableSort(s[..|s| - 1], le), s[|s| - 1], le)
  }

  lemma {:induction false} InsertHolds<T(!new)>(s: seq<T>, x: T, le: (T, T) -> bool)
    ensures multiset(Insert(s, x, le)) == multiset(s + [x])
  {
    if |s| > 0 && !le(s[|s| - 1], x) {
      var front, last := s[..|s| - 1], s[|s| - 1];
      InsertHolds(front, x, le);
      assert s == front + [last];
    }
  }

  lemma FollowsAll<T(!new)>(s: seq<T>, x: T, le: (T, T) -> bool)
    requires Preorder(le) && Ascending(s, le) && |s| > 0 && le(s[|s| - 1], x)
    ensures Ascending(s + [x], le)
  {
    forall i | 0 <= i < |s| ensures le(s[i], x) {
      assert i == |s| - 1 || le(s[i], s[|s| - 1]);
    }
  }

  /** The inserted element stands behind those it follows and before the others. */
  lemma {:induction false} InsertSorts<T(!new)>(s: seq<T>, x: T, le: (T, T) -> bool)
    requires Preorder(le) && Ascending(s, le)
    ensures Ascending(Insert(s, x, le), le)
  {
    if |s| > 0 && le(s[|s| - 1], x) {
      FollowsAll(s, x, le);
    } else if |s| > 0 {
      var front, last := s[..|s| - 1], s[|s| - 1];
      InsertSorts(front, x, le);
      InsertHolds(front, x, le);
      forall y | y in Insert(front, x, le) ensures le(y, last) {
        assert y in multiset(Insert(front, x, le));
        assert y in multiset(front + [x]);
      }
    }
  }

  lemma {:induction false} InsertIsStable<T(!new)>(s: seq<T>, x: T, le: (T, T) -> bool, k: T)
    requires Preorder(le)
    ensures Filter(Insert(s, x, le), Alike(le, k)) == Filter(s + [x], Alike(le, k))
  {
    if |s| > 0 && !le(s[|s| - 1], x) {
      var p, front, last := Alike(le, k), s[..|s| - 1], s[|s| - 1];
      InsertIsStable(front, x, le, k);
      assert s == front + [last];
      assert !(p(last) && p(x));
      FilterAppend(Insert(front, x, le), [last], p);
      FilterAppend(front, [last], p);
      FilterAppend(s, [x], p);
      FilterAppend(front, [x], p);
    }
  }

  /** Sorting reorders the list into ascending order and keeps the order of elements ranked alike. */
  lemma {:induction false} StableSortSorts<T(!new)>(s: seq<T>, le: (T, T) -> bool)
    requires Preorder(le)
    ensures multiset(StableSort(s, le)) == multiset(s)
    ensures Ascending(StableSort(s, le), le)
    ensures forall k :: Filter(StableSort(s, le), Alike(le, k)) == Filter(s, Alike(le, k))
  {
    if |s| > 0 {
      var front, last := s[..|s| - 1], s[|s| - 1];
      StableSortSorts(front, le);
      var t := StableSort(front, le);
      InsertHolds(t, last, le);
      InsertSorts(t, last, le);
      assert s == front + [last];
      forall k ensures Filter(Insert(t, last, le), Alike(le, k)) == Filter(s, Alike(le, k)) {
        InsertIsStable(t, last, le, k);
        FilterAppend(t, [last], Alike(le, k));
        FilterAppend(front, [last], Alike(le, k));
      }
    }
  }

  lemma SnocIsInjective<T>(s: seq<T>, x: T, t: seq<T>, y: T)
    requires s + [x] == t + [y]
    ensures s == t && x == y
  {
    assert |s| == |t|;
    assert s == (s + [x])[..|s|] == (t + [y])[..|t|] == t;
    assert x == (s + [x])[|s|] == (t + [y])[|t|] == y;
  }

  lemma SameMembers<T(!new)>(a: seq<T>, b: seq<T>, le: (T, T) -> bool)
    requires Preorder(le)
    requires forall k :: Filter(a, Alike(le, k)) == Filter(b, Alike(le, k))
    ensures forall x :: x in a ==> x in b
    ensures |a| > 0 ==> |b| > 0
  {
    forall x | x in a ensures x in b {
      FilterMembers(a, Alike(le, x));
      FilterMembers(b, Alike(le, x));
      assert x in Filter(a, Alike(le, x));
    }
    if |a| > 0 {
      assert a[0] in b;
    }
  }

  lemma LastIsHighest<T(!new)>(a: seq<T>, b: seq<T>, le: (T, T) -> bool)
    requires Preorder(le)
    requires |a| > 0 && |b| > 0 && Ascending(b, le)
    requires forall k :: Filter(a, Alike(le, k)) == Filter(b, Alike(le, k))
    ensures le(a[|a| - 1], b[|b| - 1])
  {
    SameMembers(a, b, le);
    assert a[|a| - 1] in b;
  }

  /** At most one list is ascending and lists the elements of each rank in a given order. */
  lemma {:induction false} StableOrderIsUnique<T(!new)>(a: seq<T>, b: seq<T>, le: (T, T) -> bool)
    requires Preorder(le)
    requires Ascending(a, le) && Ascending(b, le)
    requires forall k :: Filter(a, Alike(le, k)) == Filter(b, Alike(le, k))
    ensures a == b
  {
    SameMembers(a, b, le);
    SameMembers(b, a, le);
    if |a| == 0 || |b| == 0 {
      assert |a| == |b| == 0;
    } else {
      var x, y := a[|a| - 1], b[|b| - 1];
      LastIsHighest(a, b, le);
      LastIsHighest(b, a, le);
      var a', b' := a[..|a| - 1], b[..|b| - 1];
      assert Filter(a, Alike(le, x)) == Filter(a', Alike(le, x)) + [x];
      assert Filter(b, Alike(le, x)) == Filter(b', Alike(le, x)) + [y];
      assert Filter(a, Alike(le, x)) == Filter(b, Alike(le, x));
      SnocIsInjective(Filter(a', Alike(le, x)), x, Filter(b', Alike(le, x)), y);
      forall k ensures Filter(a', Alike(le, k)) == Filter(b', Alike(le, k)) {
        assert Filter(a, Alike(le, k)) == Filter(b, Alike(le, k));
        if Alike(le, k)(x) {
          assert Filter(a, Alike(le, k)) == Filter(a', Alike(le, k)) + [x];
          assert Filter(b, Alike(le, k)) == Filter(b', Alike(le, k)) + [x];
          SnocIsInjective(Filter(a', Alike(le, k)), x, Filter(b', Alike(le, k)), x);
        }
      }
      StableOrderIsUnique(a', b', le);
      assert a == a' + [x] && b == b' + [y];
    }
  }

  lemma InsertHighest<T(!new)>(s: seq<T>, x: T, le: (T, T) -> bool)
    requires |s| == 0 || le(s[|s| - 1], x)
    ensures Insert(s, x, le) == s + [x]
  {
  }

  lemma {:induction false} SortOfAscending<T(!new)>(s: seq<T>, le: (T, T) -> bool)
    requires Ascending(s, le)
    ensures StableSort(s, le) == s
  {
    hide Insert;
    if |s| > 0 {
      var front, last := s[..|s| - 1], s[|s| - 1];
      SortOfAscending(front, le);
      InsertHighest(front, last, le);
      assert s == front + [last];
    }
  }

  lemma {:induction false} InsertFiltered<T(!new)>(s: seq<T>, x: T, le: (T, T) -> bool, p: T -> bool)
    requires Preorder(le) && Ascending(s, le)
    ensures Filter(Insert(s, x, le), p) == if p(x) then Insert(Filter(s, p), x, le) else Filter(s, p)
  {
    if |s| == 0 || le(s[|s| - 1], x) {
      assert (s + [x])[..|s|] == s;
      FilterMembers(s, p);
      var kept := Filter(s, p);
      if |kept| > 0 {
        assert kept[|kept| - 1] in kept;
        assert kept[|kept| - 1] in s;
      }
    } else {
      var front, last := s[..|s| - 1], s[|s| - 1];
      InsertFiltered(front, x, le, p);
      assert (Insert(front, x, le) + [last])[..|Insert(front, x, le)|] == Insert(front, x, le);
      if p(last) {
        assert (Filter(front, p) + [last])[..|Filter(front, p)|] == Filter(front, p);
      }
    }
  }

  /** Removing elements before or after sorting gives the same list. */
  lemma {:induction false} SortFiltered<T(!new)>(s: seq<T>, le: (T, T) -> bool, p: T -> bool)
    requires Preorder(le)
    ensures Filter(StableSort(s, le), p) == StableSort(Filter(s, p), le)
  {
    if |s| > 0 {
      var front, last := s[..|s| - 1], s[|s| - 1];
      SortFiltered(front, le, p);
      StableSortSorts(front, le);
      InsertFiltered(StableSort(front, le), last, le, p);
      if p(last) {
        assert (Filter(front, p) + [last])[..|Filter(front, p)|] == Filter(front, p);
      }
    }
  }
}
