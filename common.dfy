/** Small building blocks shared by every module of the model: optional values
    and results (Python's None and raised exceptions), insertion-ordered
    dictionaries (Python dicts), Python's prefix slice `s[:n]` and sums. */
module Common {

  datatype Option<+T> = None | Some(value: T) {
    /** `d.get(key, default)` once the lookup has been done. */
    function GetOr(default: T): T {
      if Some? then value else default
    }
  }

  datatype Result<+T, +E> = Ok(value: T) | Err(error: E)

  // ---------------------------------------------------------------------
  // Insertion-ordered dictionaries: a sequence of (key, value) entries.
  // ---------------------------------------------------------------------

  /** A Python dict never holds the same key twice. */
  ghost predicate DistinctKeys<K, V>(d: seq<(K, V)>) {
    forall i, j :: 0 <= i < j < |d| ==> d[i].0 != d[j].0
  }

  ghost predicate HasKey<K, V>(d: seq<(K, V)>, k: K) {
    exists i :: 0 <= i < |d| && d[i].0 == k
  }

  lemma HasKeyCons<K, V>(d: seq<(K, V)>, k: K)
    requires |d| > 0
    ensures HasKey(d, k) <==> d[0].0 == k || HasKey(d[1..], k)
  {
    if HasKey(d, k) && d[0].0 != k {
      var i :| 0 <= i < |d| && d[i].0 == k;
      assert d[1..][i - 1].0 == k;
    }
    if HasKey(d[1..], k) {
      var i :| 0 <= i < |d[1..]| && d[1..][i].0 == k;
      assert d[i + 1].0 == k;
    }
  }

  lemma DistinctKeysCons<K, V>(d: seq<(K, V)>)
    requires |d| > 0
    ensures DistinctKeys(d) <==> DistinctKeys(d[1..]) && !HasKey(d[1..], d[0].0)
  {
    if DistinctKeys(d[1..]) && !HasKey(d[1..], d[0].0) {
      forall i, j | 0 <= i < j < |d| ensures d[i].0 != d[j].0 {
        if i == 0 {
          assert d[1..][j - 1] == d[j];
        } else {
          assert d[1..][i - 1] == d[i] && d[1..][j - 1] == d[j];
        }
      }
    }
  }

  /** `d.get(k)`: the value of the first entry with key `k`. */
  function Lookup<K(==), V>(d: seq<(K, V)>, k: K): (r: Option<V>)
    ensures r.Some? <==> HasKey(d, k)
    ensures r.Some? ==> exists i :: 0 <= i < |d| && d[i] == (k, r.value)
  {
    if |d| == 0 then None
    else if d[0].0 == k then Some(d[0].1)
    else
      var r := Lookup(d[1..], k);
      assert r.Some? ==> exists i :: 0 <= i < |d[1..]| && d[1..][i] == (k, r.value);
      HasKeyCons(d, k);
      r
  }

  /** In a dict, looking up the key of an entry finds that entry's value. */
  lemma {:induction false} LookupEntry<K, V>(d: seq<(K, V)>, i: nat)
    requires DistinctKeys(d) && i < |d|
    ensures Lookup(d, d[i].0) == Some(d[i].1)
  {
    if i > 0 {
      assert d[1..][i - 1] == d[i];
      assert DistinctKeys(d[1..]);
      LookupEntry(d[1..], i - 1);
    }
  }

  /** Looking up a key that no earlier entry has finds that entry. */
  lemma {:induction false} LookupFirst<K, V>(d: seq<(K, V)>, i: nat)
    requires i < |d| && forall j :: 0 <= j < i ==> d[j].0 != d[i].0
    ensures Lookup(d, d[i].0) == Some(d[i].1)
  {
    if i > 0 {
      assert d[1..][i - 1] == d[i];
      LookupFirst(d[1..], i - 1);
    }
  }

  /** `d[k] = v`: an existing key keeps its position and takes the new
      value; a new key is appended at the end. */
  function Assign<K(==,!new), V>(d: seq<(K, V)>, k: K, v: V): (r: seq<(K, V)>)
    ensures Lookup(r, k) == Some(v)
    ensures forall k' :: k' != k ==> Lookup(r, k') == Lookup(d, k')
    ensures HasKey(d, k) ==> |r| == |d|
    ensures !HasKey(d, k) ==> |r| == |d| + 1 && r[..|d|] == d
    ensures DistinctKeys(d) ==> DistinctKeys(r)
  {
    if |d| == 0 then [(k, v)]
    else if d[0].0 == k then
      var r := [(k, v)] + d[1..];
      assert DistinctKeys(d) ==> DistinctKeys(r) by {
        assert r[1..] == d[1..];
        DistinctKeysCons(d);
        DistinctKeysCons(r);
      }
      r
    else
      var rest := Assign(d[1..], k, v);
      var r := [d[0]] + rest;
      assert r[1..] == rest;
      assert HasKey(d, k) <==> HasKey(d[1..], k) by { HasKeyCons(d, k); }
      assert !HasKey(d, k) ==> r[..|d|] == d by {
        if !HasKey(d, k) {
          assert r[..|d|] == [d[0]] + rest[..|d| - 1];
        }
      }
      assert DistinctKeys(d) ==> DistinctKeys(r) by {
        assert Lookup(rest, d[0].0) == Lookup(d[1..], d[0].0);
        DistinctKeysCons(d);
        DistinctKeysCons(r);
      }
      r
  }

  // ---------------------------------------------------------------------
  // A loop that builds one result per element and stops at the first
  // exception.
  // ---------------------------------------------------------------------

  /** `[f(x) for x in xs]` where `f` may raise: the results in order, or
      the error of the first element that fails. */
  function MapResults<A, B, E>(xs: seq<A>, f: A -> Result<B, E>): (r: Result<seq<B>, E>)
    ensures r.Ok? <==> forall i :: 0 <= i < |xs| ==> f(xs[i]).Ok?
    ensures r.Ok? ==> |r.value| == |xs|
    ensures r.Ok? ==> forall i :: 0 <= i < |xs| ==> f(xs[i]) == Ok(r.value[i])
    ensures r.Err? ==> exists i ::
      && 0 <= i < |xs|
      && f(xs[i]) == Err(r.error)
      && (forall j :: 0 <= j < i ==> f(xs[j]).Ok?)
  {
    if |xs| == 0 then Ok([])
    else
      var n := |xs| - 1;
      assert forall i :: 0 <= i < n ==> xs[..n][i] == xs[i];
      match MapResults(xs[..n], f)
      case Err(e) => Err(e)
      case Ok(ys) =>
        match f(xs[n])
        case Err(e) => Err(e)
        case Ok(y) => Ok(ys + [y])
  }

  lemma MapResultsSnoc<A, B, E>(xs: seq<A>, x: A, f: A -> Result<B, E>)
    ensures MapResults(xs + [x], f) ==
      match MapResults(xs, f)
      case Err(e) => Err(e)
      case Ok(ys) => (match f(x) case Err(e) => Err(e) case Ok(y) => Ok(ys + [y]))
  {
    assert (xs + [x])[..|xs|] == xs;
  }

  /** Once a prefix has failed, the rest does not matter. */
  lemma {:induction false} MapResultsErrPrefix<A, B, E>(xs: seq<A>, ys: seq<A>, f: A -> Result<B, E>)
    requires xs <= ys && MapResults(xs, f).Err?
    ensures MapResults(ys, f) == MapResults(xs, f)
  {
    if |ys| > |xs| {
      var init := ys[..|ys| - 1];
      assert xs <= init;
      MapResultsErrPrefix(xs, init, f);
    } else {
      assert xs == ys;
    }
  }

  /** One more element of `s` after the fixed front `v`. */
  lemma MapResultsStep<A, B, E>(v: seq<A>, s: seq<A>, k: nat, f: A -> Result<B, E>)
    requires k < |s|
    ensures MapResults(v + s[..k + 1], f) ==
      match MapResults(v + s[..k], f)
      case Err(e) => Err(e)
      case Ok(ys) => (match f(s[k]) case Err(e) => Err(e) case Ok(y) => Ok(ys + [y]))
  {
    assert v + s[..k + 1] == (v + s[..k]) + [s[k]];
    MapResultsSnoc(v + s[..k], s[k], f);
  }

  /** A failure within the first `k` elements of `s` after `v` is the
      failure of `v + s`. */
  lemma MapResultsErrAt<A, B, E>(v: seq<A>, s: seq<A>, k: nat, f: A -> Result<B, E>)
    requires k <= |s| && MapResults(v + s[..k], f).Err?
    ensures MapResults(v + s, f) == MapResults(v + s[..k], f)
  {
    assert v + s[..k] == (v + s)[..|v| + k];
    MapResultsErrPrefix(v + s[..k], v + s, f);
  }

  /** Indexing a concatenation: the left part, then the right one. */
  lemma AppendIndex<T>(a: seq<T>, b: seq<T>, i: nat)
    requires i < |a| + |b|
    ensures (a + b)[i] == if i < |a| then a[i] else b[i - |a|]
  {
  }

  lemma AppendAssoc<T>(a: seq<T>, b: seq<T>, c: seq<T>)
    ensures (a + b) + c == a + (b + c)
  {
  }

  /** A failure in `v + a` is the failure of `v + (a + b)`. */
  lemma MapResultsErrAppend<A, B, E>(v: seq<A>, a: seq<A>, b: seq<A>, f: A -> Result<B, E>)
    requires MapResults(v + a, f).Err?
    ensures MapResults(v + (a + b), f) == MapResults(v + a, f)
  {
    assert v + (a + b) == (v + a) + b;
    MapResultsErrPrefix(v + a, v + (a + b), f);
  }

  // ---------------------------------------------------------------------
  // Python's prefix slice and sums.
  // ---------------------------------------------------------------------

  /** The length of `s[:n]` for a sequence of length `len`: a negative `n`
      counts from the end. */
  function SliceLength(len: nat, n: int): (k: nat)
    ensures k <= len
    ensures 0 <= n ==> k == if n < len then n else len
    ensures n < 0 ==> k == if len + n < 0 then 0 else len + n
  {
    if n >= 0 then (if n < len then n else len)
    else if len + n < 0 then 0 else len + n
  }

  /** Python's `s[:n]`. */
  function Take<T>(s: seq<T>, n: int): (r: seq<T>)
    ensures |r| == SliceLength(|s|, n)
    ensures r <= s
  {
    s[..SliceLength(|s|, n)]
  }

  function Sum(xs: seq<real>): real {
    if |xs| == 0 then 0.0 else Sum(xs[..|xs| - 1]) + xs[|xs| - 1]
  }

  /** One step of a sum over a prefix. */
  lemma SumPrefixStep(xs: seq<real>, k: nat)
    requires 0 < k <= |xs|
    ensures Sum(xs[..k]) == Sum(xs[..k - 1]) + xs[k - 1]
  {
    assert xs[..k][..k - 1] == xs[..k - 1];
  }

  /** The sum of twelve values written out. */
  lemma SumTwelve(xs: seq<real>)
    requires |xs| == 12
    ensures Sum(xs) == xs[0] + xs[1] + xs[2] + xs[3] + xs[4] + xs[5]
      + xs[6] + xs[7] + xs[8] + xs[9] + xs[10] + xs[11]
  {
    assert xs[..0] == [];
    SumPrefixStep(xs, 1); SumPrefixStep(xs, 2); SumPrefixStep(xs, 3);
    SumPrefixStep(xs, 4); SumPrefixStep(xs, 5); SumPrefixStep(xs, 6);
    SumPrefixStep(xs, 7); SumPrefixStep(xs, 8); SumPrefixStep(xs, 9);
    SumPrefixStep(xs, 10); SumPrefixStep(xs, 11); SumPrefixStep(xs, 12);
    assert xs[..12] == xs;
  }

  lemma {:induction false} SumAppend(xs: seq<real>, ys: seq<real>)
    ensures Sum(xs + ys) == Sum(xs) + Sum(ys)
  {
    if |ys| > 0 {
      assert (xs + ys)[..|xs + ys| - 1] == xs + ys[..|ys| - 1];
      SumAppend(xs, ys[..|ys| - 1]);
    } else {
      assert xs + ys == xs;
    }
  }

  /** `[x for x in s if p(x)]`: the elements satisfying `p`, in order,
      each as often as in `s`. */
  function Filter<T(!new)>(s: seq<T>, p: T -> bool): (r: seq<T>)
    ensures |r| <= |s|
    ensures forall x :: x in r <==> x in s && p(x)
  {
    if |s| == 0 then []
    else
      var init := s[..|s| - 1];
      assert s == init + [s[|s| - 1]];
      Filter(init, p) + (if p(s[|s| - 1]) then [s[|s| - 1]] else [])
  }

  /** Filtering keeps every passing element as often as it occurs. */
  lemma {:induction false} FilterCount<T(!new)>(s: seq<T>, p: T -> bool, x: T)
    ensures multiset(Filter(s, p))[x] == if p(x) then multiset(s)[x] else 0
  {
    if |s| > 0 {
      var init := s[..|s| - 1];
      assert s == init + [s[|s| - 1]];
      FilterCount(init, p, x);
    }
  }

  lemma {:induction false} FilterAppend<T(!new)>(s: seq<T>, t: seq<T>, p: T -> bool)
    ensures Filter(s + t, p) == Filter(s, p) + Filter(t, p)
  {
    if |t| > 0 {
      assert (s + t)[..|s + t| - 1] == s + t[..|t| - 1];
      FilterAppend(s, t[..|t| - 1], p);
    } else {
      assert s + t == s;
    }
  }

  /** An element the predicate rejects leaves no trace in the filter. */
  lemma FilterSkip<T(!new)>(a: seq<T>, b: seq<T>, x: T, p: T -> bool)
    requires !p(x)
    ensures Filter(a + [x] + b, p) == Filter(a + b, p)
  {
    assert Filter([x], p) == [] by {
      assert [x][..0] == [];
    }
    assert Filter(a + [x], p) == Filter(a, p) by {
      FilterAppend(a, [x], p);
    }
    FilterAppend(a + [x], b, p);
    FilterAppend(a, b, p);
  }

  /** Filtering keeps a sequence whose every element passes. */
  lemma {:induction false} FilterAll<T(!new)>(s: seq<T>, p: T -> bool)
    requires forall i :: 0 <= i < |s| ==> p(s[i])
    ensures Filter(s, p) == s
  {
    if |s| > 0 {
      FilterAll(s[..|s| - 1], p);
    }
  }

  /** The present values of a column, in order: what pandas' reductions
      see once they skip NaN. */
  function SomeValues(xs: seq<Option<real>>): (r: seq<real>)
    ensures |r| <= |xs|
    ensures (forall i :: 0 <= i < |xs| ==> xs[i].None?) <==> |r| == 0
  {
    if |xs| == 0 then []
    else
      var init := SomeValues(xs[..|xs| - 1]);
      var last := xs[|xs| - 1];
      assert |init| == 0 ==> forall i :: 0 <= i < |xs| - 1 ==> xs[i].None? by {
        if |init| == 0 {
          forall i | 0 <= i < |xs| - 1 ensures xs[i].None? {
            assert xs[..|xs| - 1][i] == xs[i];
          }
        }
      }
      assert |init| > 0 ==> exists i :: 0 <= i < |xs| && xs[i].Some? by {
        if |init| > 0 {
          assert init[0] in init;
        }
      }
      init + (if last.Some? then [last.value] else [])
  }

  lemma SomeValuesSnoc(xs: seq<Option<real>>, x: Option<real>)
    ensures SomeValues(xs + [x]) == SomeValues(xs) + (if x.Some? then [x.value] else [])
  {
    assert (xs + [x])[..|xs|] == xs;
  }

  /** Every present value comes from the column. */
  lemma {:induction false} SomeValuesFrom(xs: seq<Option<real>>, v: real)
    requires v in SomeValues(xs)
    ensures exists i :: 0 <= i < |xs| && xs[i] == Some(v)
  {
    var init := xs[..|xs| - 1];
    if v in SomeValues(init) {
      SomeValuesFrom(init, v);
      var i :| 0 <= i < |init| && init[i] == Some(v);
      assert xs[i] == Some(v);
    }
  }

  /** `Series.mean()`: the mean of the present values, NaN when there are
      none. */
  function Mean(xs: seq<Option<real>>): (r: Option<real>)
    ensures r.None? <==> forall i :: 0 <= i < |xs| ==> xs[i].None?
  {
    var vs := SomeValues(xs);
    if |vs| == 0 then None else Some(Sum(vs) / |vs| as real)
  }

  /** Every element of `xs` lies in [lo, hi], so the sum lies between `n`
      times each bound. */
  lemma {:induction false} SumBounds(xs: seq<real>, lo: real, hi: real)
    requires forall i :: 0 <= i < |xs| ==> lo <= xs[i] <= hi
    ensures |xs| as real * lo <= Sum(xs) <= |xs| as real * hi
  {
    if |xs| > 0 {
      SumBounds(xs[..|xs| - 1], lo, hi);
    }
  }

  /** The mean of values in [lo, hi] lies in [lo, hi]. */
  lemma MeanBounds(xs: seq<Option<real>>, lo: real, hi: real)
    requires forall i :: 0 <= i < |xs| && xs[i].Some? ==> lo <= xs[i].value <= hi
    requires Mean(xs).Some?
    ensures lo <= Mean(xs).value <= hi
  {
    var vs := SomeValues(xs);
    var n := |vs| as real;
    forall i | 0 <= i < |vs| ensures lo <= vs[i] <= hi {
      SomeValuesFrom(xs, vs[i]);
    }
    SumBounds(vs, lo, hi);
    DivMono(n * lo, Sum(vs), n);
    DivMono(Sum(vs), n * hi, n);
    MulDivCancel(n, lo);
    MulDivCancel(n, hi);
  }

  /** `x / total * 100`. */
  function Percent(x: real, total: real): real
    requires total != 0.0
  {
    x / total * 100.0
  }

  /** Each value as a percentage of `total`. */
  function Percentages(xs: seq<real>, total: real): (r: seq<real>)
    requires total != 0.0
    ensures |r| == |xs|
    ensures forall i :: 0 <= i < |xs| ==> r[i] == Percent(xs[i], total)
  {
    seq(|xs|, i requires 0 <= i < |xs| => Percent(xs[i], total))
  }

  lemma PercentagesAppend(xs: seq<real>, ys: seq<real>, total: real)
    requires total != 0.0
    ensures Percentages(xs + ys, total) == Percentages(xs, total) + Percentages(ys, total)
  {
  }

  /** Percentages of their own sum add up to 100. */
  lemma {:induction false} PercentagesSum(xs: seq<real>, total: real)
    requires total != 0.0
    ensures Sum(Percentages(xs, total)) == Sum(xs) / total * 100.0
  {
    if |xs| > 0 {
      var init := xs[..|xs| - 1];
      PercentagesSum(init, total);
      assert Percentages(xs, total)[..|xs| - 1] == Percentages(init, total);
      assert (Sum(init) + xs[|xs| - 1]) / total == Sum(init) / total + xs[|xs| - 1] / total;
    }
  }

  /** Each value multiplied by `k`. */
  function Scaled(xs: seq<real>, k: real): (r: seq<real>)
    ensures |r| == |xs| && forall i :: 0 <= i < |xs| ==> r[i] == k * xs[i]
  {
    seq(|xs|, i requires 0 <= i < |xs| => k * xs[i])
  }

  /** Positive values scaled by a positive factor stay positive. */
  lemma ScaledPositive(xs: seq<real>, k: real)
    requires k > 0.0 && forall i :: 0 <= i < |xs| ==> xs[i] > 0.0
    ensures forall i :: 0 <= i < |xs| ==> Scaled(xs, k)[i] > 0.0
  {
    forall i | 0 <= i < |xs| ensures Scaled(xs, k)[i] > 0.0 {
      MulStrictMono(k, 0.0, xs[i]);
    }
  }

  /** A common factor comes out of a sum. */
  lemma {:induction false} SumScaled(xs: seq<real>, k: real)
    ensures Sum(Scaled(xs, k)) == k * Sum(xs)
  {
    if |xs| > 0 {
      var init := xs[..|xs| - 1];
      SumScaled(init, k);
      var sc := Scaled(xs, k);
      assert forall i :: 0 <= i < |init| ==> sc[..|xs| - 1][i] == Scaled(init, k)[i];
      assert sc[..|xs| - 1] == Scaled(init, k);
      assert k * (Sum(init) + xs[|xs| - 1]) == k * Sum(init) + k * xs[|xs| - 1];
    }
  }

  // ---------------------------------------------------------------------
  // Real arithmetic the solver needs spelled out.
  // ---------------------------------------------------------------------

  lemma MulNonneg(a: real, b: real)
    requires a >= 0.0 && b >= 0.0
    ensures a * b >= 0.0
  {
  }

  lemma MulMono(a: real, b: real, c: real)
    requires a >= 0.0 && b <= c
    ensures a * b <= a * c
  {
    MulNonneg(a, c - b);
    assert a * (c - b) == a * c - a * b;
  }

  lemma MulStrictMono(a: real, b: real, c: real)
    requires a > 0.0 && b < c
    ensures a * b < a * c
  {
    assert a * (c - b) == a * c - a * b;
  }

  /** `x / d <= 1` exactly when `x <= d`, for a positive `d`. */
  lemma DivAtMostOne(x: real, d: real)
    requires d > 0.0
    ensures x / d <= 1.0 <==> x <= d
  {
    var q := x / d;
    assert d * q == x;
    if q > 1.0 {
      MulStrictMono(d, 1.0, q);
      assert d * 1.0 < d * q;
    } else {
      MulMono(d, q, 1.0);
    }
  }

  lemma DivSelf(x: real)
    requires x != 0.0
    ensures x / x == 1.0
  {
  }

  lemma DivNonneg(x: real, d: real)
    requires d > 0.0
    ensures x / d >= 0.0 <==> x >= 0.0
  {
    var q := x / d;
    assert d * q == x;
    if q >= 0.0 {
      MulNonneg(d, q);
    } else {
      MulStrictMono(d, q, 0.0);
    }
  }

  /** `h * (k * d)` is `k` times `h * d`. */
  lemma ScaledProduct(h: real, d: real, k: real, t: real, u: real)
    requires t == h * d && u == h * (k * d)
    ensures u == k * t
  {
  }

  lemma MulDivCancel(d: real, x: real)
    requires d > 0.0
    ensures (d * x) / d == x
  {
  }

  lemma DivMono(x: real, y: real, d: real)
    requires d > 0.0 && x <= y
    ensures x / d <= y / d
  {
    var qx := x / d;
    var qy := y / d;
    assert d * qx == x;
    assert d * qy == y;
    if qx > qy {
      MulStrictMono(d, qy, qx);
    }
  }

  // ---------------------------------------------------------------------
  // Python's round(x, digits): to the nearest multiple of 10^-digits,
  // an exact tie going to the even neighbour.
  // ---------------------------------------------------------------------

  /** The integer nearest to `y`; an exact tie goes to the even one. */
  function RoundHalfEven(y: real): (n: int)
    ensures n as real - 0.5 <= y <= n as real + 0.5
    ensures y == n as real - 0.5 || y == n as real + 0.5 ==> n % 2 == 0
  {
    var f := y.Floor;
    var frac := y - f as real;
    if frac < 0.5 then f
    else if frac > 0.5 then f + 1
    else if f % 2 == 0 then f
    else f + 1
  }

  /** Rounding to an integer preserves order. */
  lemma RoundHalfEvenMono(a: real, b: real)
    requires a <= b
    ensures RoundHalfEven(a) <= RoundHalfEven(b)
  {
    var na, nb := RoundHalfEven(a), RoundHalfEven(b);
    if na > nb {
      assert false;
    }
  }

  /** The number of decimals a `round(x, d)` call keeps: the sources
      round to none, to one or to two. */
  datatype Digits = NoDecimals | OneDecimal | TwoDecimals {
    /** `10^d`. */
    function Factor(): (f: real)
      ensures f >= 1.0
    {
      match this
      case NoDecimals => 1.0
      case OneDecimal => 10.0
      case TwoDecimals => 100.0
    }
  }

  /** `round(x, d)`: the multiple of `10^-d` nearest to `x`, an exact tie
      going to the even multiple. It is a whole number of units of the last
      kept digit and lies within half a unit of `x`. */
  function Round(x: real, d: Digits): (r: real)
    ensures r * d.Factor() == RoundHalfEven(x * d.Factor()) as real
    ensures x - 0.5 / d.Factor() <= r <= x + 0.5 / d.Factor()
  {
    match d
    case NoDecimals => RoundHalfEven(x) as real
    case OneDecimal => RoundHalfEven(x * 10.0) as real / 10.0
    case TwoDecimals => RoundHalfEven(x * 100.0) as real / 100.0
  }

  /** `Series.round(d)` on one cell: NaN stays NaN. */
  function RoundOption(x: Option<real>, d: Digits): (r: Option<real>)
    ensures r.Some? <==> x.Some?
    ensures r.Some? ==> r.value == Round(x.value, d)
  {
    match x
    case None => None
    case Some(v) => Some(Round(v, d))
  }

  /** Rounding keeps a percentage within [0, 100], and 0 and 100 are kept
      exactly. */
  lemma RoundPercent(x: real, d: Digits)
    requires 0.0 <= x <= 100.0
    ensures 0.0 <= Round(x, d) <= 100.0
    ensures x == 0.0 ==> Round(x, d) == 0.0
    ensures x == 100.0 ==> Round(x, d) == 100.0
  {
    RoundMono(0.0, x, d);
    RoundMono(x, 100.0, d);
    RoundExact(0, d);
    match d
    case NoDecimals => RoundExact(100, d);
    case OneDecimal => RoundExact(1000, d);
    case TwoDecimals => RoundExact(10000, d);
  }

  /** Rounding preserves order. */
  lemma RoundMono(a: real, b: real, d: Digits)
    requires a <= b
    ensures Round(a, d) <= Round(b, d)
  {
    RoundHalfEvenMono(a * d.Factor(), b * d.Factor());
  }

  /** A value that is already a whole number of units rounds to itself. */
  lemma RoundExact(k: int, d: Digits)
    ensures Round(k as real / d.Factor(), d) == k as real / d.Factor()
  {
  }
}
