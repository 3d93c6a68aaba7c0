/** Sorting by a real-valued key, as Python's `list.sort(key=...)` does it:
    a stable sort, so elements with equal keys keep their input order, and
    with `reverse=True` a descending sort that is stable as well.

    The sort is defined as an insertion sort; what callers rely on are the
    three lemmas about it: the result is ordered, it is a permutation of the
    input, and among elements with the same key the input order survives. */
module Sorting {
  import opened Common

  ghost predicate Ascending<T>(s: seq<T>, key: T -> real) {
    forall i, j :: 0 <= i < j < |s| ==> key(s[i]) <= key(s[j])
  }

  ghost predicate Descending<T>(s: seq<T>, key: T -> real) {
    forall i, j :: 0 <= i < j < |s| ==> key(s[i]) >= key(s[j])
  }

  /** The elements of `s` whose key is `v`, in their order in `s`. */
  function WithKey<T>(s: seq<T>, key: T -> real, v: real): seq<T> {
    if |s| == 0 then []
    else (if key(s[0]) == v then [s[0]] else []) + WithKey(s[1..], key, v)
  }

  /** Places `x` into the ascending sequence `s` after every element whose
      key is not larger than that of `x`. */
  function Insert<T>(x: T, s: seq<T>, key: T -> real): seq<T> {
    if |s| == 0 then [x]
    else if key(x) < key(s[0]) then [x] + s
    else [s[0]] + Insert(x, s[1..], key)
  }

  /** `sorted(s, key=key)`. */
  function SortAscending<T>(s: seq<T>, key: T -> real): seq<T> {
    if |s| == 0 then []
    else Insert(s[|s| - 1], SortAscending(s[..|s| - 1], key), key)
  }

  /** `sorted(s, key=key, reverse=True)`: ascending by the negated key,
      which keeps elements with equal keys in input order, as Python does. */
  function SortDescending<T>(s: seq<T>, key: T -> real): seq<T> {
    SortAscending(s, x => -key(x))
  }

  lemma {:induction false} WithKeyAppend<T>(a: seq<T>, b: seq<T>, key: T -> real, v: real)
    ensures WithKey(a + b, key, v) == WithKey(a, key, v) + WithKey(b, key, v)
  {
    if |a| > 0 {
      assert (a + b)[1..] == a[1..] + b;
      WithKeyAppend(a[1..], b, key, v);
    } else {
      assert a + b == b;
    }
  }

  lemma {:induction false} InsertPermutation<T>(x: T, s: seq<T>, key: T -> real)
    ensures multiset(Insert(x, s, key)) == multiset(s) + multiset{x}
    ensures |Insert(x, s, key)| == |s| + 1
  {
    if |s| > 0 && key(x) >= key(s[0]) {
      InsertPermutation(x, s[1..], key);
      assert s == [s[0]] + s[1..];
    }
  }

  /** A bound below every key of `s` and below the key of `x` stays below
      every key after the insertion. */
  lemma {:induction false} InsertLowerBound<T>(x: T, s: seq<T>, key: T -> real, b: real)
    requires b <= key(x)
    requires forall i :: 0 <= i < |s| ==> b <= key(s[i])
    ensures forall i :: 0 <= i < |Insert(x, s, key)| ==> b <= key(Insert(x, s, key)[i])
  {
    if |s| > 0 && key(x) >= key(s[0]) {
      InsertLowerBound(x, s[1..], key, b);
    }
  }

  lemma {:induction false} InsertOrdered<T>(x: T, s: seq<T>, key: T -> real)
    requires Ascending(s, key)
    ensures Ascending(Insert(x, s, key), key)
  {
    if |s| > 0 && key(x) >= key(s[0]) {
      InsertOrdered(x, s[1..], key);
      InsertLowerBound(x, s[1..], key, key(s[0]));
    }
  }

  /** Inserting `x` adds it after the elements with the same key. */
  lemma {:induction false} InsertWithKey<T>(x: T, s: seq<T>, key: T -> real, v: real)
    requires Ascending(s, key)
    ensures WithKey(Insert(x, s, key), key, v)
         == WithKey(s, key, v) + (if key(x) == v then [x] else [])
  {
    if |s| == 0 {
    } else if key(x) < key(s[0]) {
      WithKeyAppend([x], s, key, v);
      if key(x) == v {
        NoneWithSmallerKey(s, key, v);
      }
    } else {
      InsertWithKey(x, s[1..], key, v);
      WithKeyAppend([s[0]], Insert(x, s[1..], key), key, v);
      WithKeyAppend([s[0]], s[1..], key, v);
      assert s == [s[0]] + s[1..];
    }
  }

  /** In an ascending sequence that starts above `v`, no key equals `v`. */
  lemma {:induction false} NoneWithSmallerKey<T>(s: seq<T>, key: T -> real, v: real)
    requires Ascending(s, key) && |s| > 0 && v < key(s[0])
    ensures WithKey(s, key, v) == []
  {
    if |s| > 1 {
      assert Ascending(s[1..], key);
      NoneWithSmallerKey(s[1..], key, v);
    }
  }

  /** The ascending sort is ordered and a permutation of its input. */
  lemma {:induction false} SortAscendingOrdered<T>(s: seq<T>, key: T -> real)
    ensures Ascending(SortAscending(s, key), key)
    ensures multiset(SortAscending(s, key)) == multiset(s)
    ensures |SortAscending(s, key)| == |s|
  {
    if |s| > 0 {
      var init := s[..|s| - 1];
      SortAscendingOrdered(init, key);
      InsertOrdered(s[|s| - 1], SortAscending(init, key), key);
      InsertPermutation(s[|s| - 1], SortAscending(init, key), key);
      assert s == init + [s[|s| - 1]];
    }
  }

  /** The ascending sort is stable. */
  lemma {:induction false} SortAscendingStable<T>(s: seq<T>, key: T -> real, v: real)
    ensures WithKey(SortAscending(s, key), key, v) == WithKey(s, key, v)
  {
    if |s| > 0 {
      var init := s[..|s| - 1];
      var x := s[|s| - 1];
      var sortedInit := SortAscending(init, key);
      var tail := if key(x) == v then [x] else [];
      assert WithKey(SortAscending(s, key), key, v) == WithKey(init, key, v) + tail by {
        SortAscendingStable(init, key, v);
        SortAscendingOrdered(init, key);
        InsertWithKey(x, sortedInit, key, v);
      }
      assert WithKey(s, key, v) == WithKey(init, key, v) + tail by {
        assert s == init + [x];
        WithKeyAppend(init, [x], key, v);
        assert WithKey([x], key, v) == tail by { assert [x][1..] == []; }
      }
    }
  }

  lemma {:induction false} WithNegatedKey<T>(s: seq<T>, key: T -> real, v: real)
    ensures WithKey(s, x => -key(x), -v) == WithKey(s, key, v)
  {
    if |s| > 0 {
      WithNegatedKey(s[1..], key, v);
    }
  }

  /** The descending sort is ordered, a permutation of its input, and
      stable. */
  lemma SortDescendingOrdered<T>(s: seq<T>, key: T -> real)
    ensures Descending(SortDescending(s, key), key)
    ensures multiset(SortDescending(s, key)) == multiset(s)
    ensures |SortDescending(s, key)| == |s|
    ensures forall v :: WithKey(SortDescending(s, key), key, v) == WithKey(s, key, v)
  {
    var neg := x => -key(x);
    SortAscendingOrdered(s, neg);
    forall v ensures WithKey(SortDescending(s, key), key, v) == WithKey(s, key, v) {
      SortAscendingStable(s, neg, -v);
      WithNegatedKey(SortDescending(s, key), key, v);
      WithNegatedKey(s, key, v);
    }
  }

  // ---------------------------------------------------------------------
  // pandas' `sort_values(ascending=False)` on a column that may hold NaN:
  // the values in descending order, then the NaN rows.
  // ---------------------------------------------------------------------

  /** The elements whose value is present, in order. */
  function FilterSome<T>(s: seq<T>, val: T -> Option<real>): (r: seq<T>)
    ensures forall x :: x in r ==> val(x).Some?
  {
    if |s| == 0 then []
    else (if val(s[0]).Some? then [s[0]] else []) + FilterSome(s[1..], val)
  }

  /** The elements whose value is missing, in order. */
  function FilterNone<T>(s: seq<T>, val: T -> Option<real>): (r: seq<T>)
    ensures forall x :: x in r ==> val(x).None?
  {
    if |s| == 0 then []
    else (if val(s[0]).None? then [s[0]] else []) + FilterNone(s[1..], val)
  }

  lemma {:induction false} FilterSplit<T>(s: seq<T>, val: T -> Option<real>)
    ensures multiset(FilterSome(s, val)) + multiset(FilterNone(s, val)) == multiset(s)
  {
    if |s| > 0 {
      FilterSplit(s[1..], val);
      assert s == [s[0]] + s[1..];
    }
  }

  function ValueOrZero<T>(val: T -> Option<real>): T -> real {
    x => val(x).GetOr(0.0)
  }

  function SortDescendingNanLast<T>(s: seq<T>, val: T -> Option<real>): seq<T> {
    SortDescending(FilterSome(s, val), ValueOrZero(val)) + FilterNone(s, val)
  }

  /** The result is a permutation of the input in which every present value
      comes before every missing one and the present values descend. */
  lemma SortDescendingNanLastSpec<T>(s: seq<T>, val: T -> Option<real>)
    ensures multiset(SortDescendingNanLast(s, val)) == multiset(s)
    ensures |SortDescendingNanLast(s, val)| == |s|
    ensures var r := SortDescendingNanLast(s, val);
      forall i, j :: 0 <= i < j < |r| && val(r[j]).Some? ==>
        val(r[i]).Some? && val(r[i]).value >= val(r[j]).value
  {
    var somes := FilterSome(s, val);
    var a := SortDescending(somes, ValueOrZero(val));
    var b := FilterNone(s, val);
    var r := a + b;
    SortDescendingOrdered(somes, ValueOrZero(val));
    FilterSplit(s, val);
    assert multiset(r) == multiset(a) + multiset(b);
    assert |r| == |s| by {
      assert |multiset(r)| == |multiset(s)|;
    }
    forall x | x in a ensures val(x).Some? {
      assert x in multiset(somes);
    }
    forall i, j | 0 <= i < j < |r| && val(r[j]).Some?
      ensures val(r[i]).Some? && val(r[i]).value >= val(r[j]).value
    {
      assert r[i] == a[i] && r[j] == a[j];
      assert a[i] in a && a[j] in a;
    }
  }
}
