/** Option, Result and the few sequence facts the other modules share. */
module Prelude {
  /** Usable with :- in functions that may fail. */
  datatype Option<+T> = None | Some(value: T) {
    predicate IsFailure() { None? }

    function PropagateFailure<U>(): Option<U>
      requires None?
    {
      None
    }

    function Extract(): T
      requires Some?
    {
      value
    }
  }

  datatype Result<+T, +E> = Ok(value: T) | Err(error: E)

  /** A list comprehension with a condition, read from the left. */
  function Filter<T>(s: seq<T>, p: T -> bool): seq<T> {
    if |s| == 0 then []
    else
      var rest := Filter(s[..|s| - 1], p);
      if p(s[|s| - 1]) then rest + [s[|s| - 1]] else rest
  }

  /** A list comprehension without a condition. */
  function Map<S, T>(s: seq<S>, f: S -> T): (r: seq<T>)
    ensures |r| == |s| && forall i :: 0 <= i < |s| ==> r[i] == f(s[i])
  {
    seq(|s|, i requires 0 <= i < |s| => f(s[i]))
  }

  /** The elements of `s` whose mask bit equals `bit`, in order. */
  function Select<T>(s: seq<T>, mask: seq<bool>, bit: bool): seq<T>
    requires |s| == |mask|
  {
    if |s| == 0 then []
    else
      var rest := Select(s[..|s| - 1], mask[..|s| - 1], bit);
      if mask[|s| - 1] == bit then rest + [s[|s| - 1]] else rest
  }

  predicate Distinct<T(==)>(s: seq<T>) {
    forall i, j :: 0 <= i < j < |s| ==> s[i] != s[j]
  }

  lemma {:induction false} FilterMembers<T(!new)>(s: seq<T>, p: T -> bool)
    ensures forall x :: x in Filter(s, p) <==> x in s && p(x)
  {
    if |s| > 0 {
      FilterMembers(s[..|s| - 1], p);
      assert s == s[..|s| - 1] + [s[|s| - 1]];
    }
  }

  lemma {:induction false} FilterAppend<T>(s: seq<T>, t: seq<T>, p: T -> bool)
    ensures Filter(s + t, p) == Filter(s, p) + Filter(t, p)
  {
    if |t| == 0 {
      assert s + t == s;
    } else {
      var t' := t[..|t| - 1];
      assert (s + t)[..|s + t| - 1] == s + t';
      FilterAppend(s, t', p);
    }
  }

  lemma {:induction false} FilterAll<T>(s: seq<T>, p: T -> bool)
    requires forall x :: x in s ==> p(x)
    ensures Filter(s, p) == s
  {
    if |s| > 0 {
      FilterAll(s[..|s| - 1], p);
      assert s == s[..|s| - 1] + [s[|s| - 1]];
    }
  }

  lemma {:induction false} FilterNone<T>(s: seq<T>, p: T -> bool)
    requires forall x :: x in s ==> !p(x)
    ensures Filter(s, p) == []
  {
    if |s| > 0 {
      FilterNone(s[..|s| - 1], p);
    }
  }

  lemma {:induction false} FilterSame<T>(s: seq<T>, p: T -> bool, q: T -> bool)
    requires forall i :: 0 <= i < |s| ==> p(s[i]) == q(s[i])
    ensures Filter(s, p) == Filter(s, q)
  {
    if |s| > 0 {
      FilterSame(s[..|s| - 1], p, q);
    }
  }

  lemma {:induction false} SelectAppend<T>(s: seq<T>, m: seq<bool>, t: seq<T>, n: seq<bool>, bit: bool)
    requires |s| == |m| && |t| == |n|
    ensures Select(s + t, m + n, bit) == Select(s, m, bit) + Select(t, n, bit)
  {
    if |t| == 0 {
      assert s + t == s && m + n == m;
    } else {
      assert (s + t)[..|s + t| - 1] == s + t[..|t| - 1];
      assert (m + n)[..|m + n| - 1] == m + n[..|n| - 1];
      SelectAppend(s, m, t[..|t| - 1], n[..|n| - 1], bit);
    }
  }

  /** The two selections of one mask hold the list's elements between them. */
  lemma {:induction false} SelectPartition<T>(s: seq<T>, mask: seq<bool>)
    requires |s| == |mask|
    ensures multiset(Select(s, mask, true)) + multiset(Select(s, mask, false)) == multiset(s)
  {
    if |s| > 0 {
      SelectPartition(s[..|s| - 1], mask[..|s| - 1]);
      assert s == s[..|s| - 1] + [s[|s| - 1]];
    }
  }

  lemma {:induction false} DistinctCardinality<T>(s: seq<T>)
    requires Distinct(s)
    ensures |set x | x in s| == |s|
  {
    if |s| > 0 {
      var t := s[..|s| - 1];
      var last := s[|s| - 1];
      DistinctCardinality(t);
      assert s == t + [last];
      assert (set x | x in s) == (set x | x in t) + {last};
      assert last !in t;
    }
  }

  lemma SubsetCardinality<T>(a: set<T>, b: set<T>)
    requires a <= b
    ensures |a| <= |b|
  {
    assert b == a + (b - a);
  }
}
