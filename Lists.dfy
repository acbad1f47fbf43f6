/**
 * The list operations the scripts use: comprehensions with a condition,
 * slicing with Python's bounds, concatenation of pieces and the stable
 * `sort(key=..., reverse=True)`.
 */
module Lists {
  import opened Wrappers

  /** `[x for x in xs if keep(x)]` */
  function Filter<T>(xs: seq<T>, keep: T -> bool): (r: seq<T>)
    ensures |r| <= |xs|
    ensures forall i | 0 <= i < |r| :: r[i] in xs && keep(r[i])
    ensures forall i | 0 <= i < |xs| :: keep(xs[i]) ==> xs[i] in r
  {
    if xs == [] then []
    else Filter(xs[..|xs| - 1], keep) + (if keep(xs[|xs| - 1]) then [xs[|xs| - 1]] else [])
  }

  /** `[f(x) for x in xs]` */
  function Map<A, B>(f: A -> B, xs: seq<A>): (r: seq<B>)
    ensures |r| == |xs|
    ensures forall i :: 0 <= i < |xs| ==> r[i] == f(xs[i])
  {
    if xs == [] then [] else Map(f, xs[..|xs| - 1]) + [f(xs[|xs| - 1])]
  }

  /** The loop that appends `f(x)` for each `x` in order whenever it is present. */
  function Choose<A, B>(xs: seq<A>, f: A -> Option<B>): seq<B> {
    if xs == [] then []
    else Choose(xs[..|xs| - 1], f) + (match f(xs[|xs| - 1]) case Some(b) => [b] case None => [])
  }

  /** The pieces one after another (`"".join(...)` on strings). */
  function Flatten<T>(xss: seq<seq<T>>): seq<T> {
    if xss == [] then [] else Flatten(xss[..|xss| - 1]) + xss[|xss| - 1]
  }

  /** A slice bound as Python reads it: negative counts from the end, then clipped to `[0, n]`. */
  function SliceBound(i: int, n: nat): (r: nat)
    ensures r <= n
    ensures 0 <= i <= n ==> r == i
  {
    if i < 0 then (if n + i < 0 then 0 else n + i) else if i > n then n else i
  }

  /** `xs[i:j]` */
  function PySlice<T>(xs: seq<T>, i: int, j: int): seq<T> {
    var lo, hi := SliceBound(i, |xs|), SliceBound(j, |xs|);
    if lo < hi then xs[lo..hi] else []
  }

  /** Keys never increase from left to right. */
  predicate SortedDesc<T>(xs: seq<T>, key: T -> int) {
    forall i, j | 0 <= i < j < |xs| :: key(xs[i]) >= key(xs[j])
  }

  /** The test "has key `k`", as a value `Filter` can take. */
  function KeyIs<T>(key: T -> int, k: int): T -> bool {
    x => key(x) == k
  }

  /** Places `x` after every element whose key is at least its own. */
  function InsertDesc<T>(xs: seq<T>, x: T, key: T -> int): seq<T> {
    if xs == [] || key(xs[|xs| - 1]) >= key(x) then xs + [x]
    else InsertDesc(xs[..|xs| - 1], x, key) + [xs[|xs| - 1]]
  }

  /**
   * `sorted(xs, key=key, reverse=True)`. Python's sort is stable, also when
   * reversed: elements with equal keys keep their order.
   */
  function SortDesc<T>(xs: seq<T>, key: T -> int): seq<T> {
    if xs == [] then [] else InsertDesc(SortDesc(xs[..|xs| - 1], key), xs[|xs| - 1], key)
  }

  lemma {:induction false} FilterAppend<T>(a: seq<T>, b: seq<T>, keep: T -> bool)
    ensures Filter(a + b, keep) == Filter(a, keep) + Filter(b, keep)
    decreases |b|
  {
    if b == [] {
      assert a + b == a;
    } else {
      var b' := b[..|b| - 1];
      assert (a + b)[..|a + b| - 1] == a + b';
      FilterAppend(a, b', keep);
    }
  }

  lemma FilterMembers<T>(xs: seq<T>, keep: T -> bool, x: T)
    ensures x in Filter(xs, keep) <==> x in xs && keep(x)
  {
    var r := Filter(xs, keep);
    if x in r {
      var i :| 0 <= i < |r| && r[i] == x;
    }
    if x in xs {
      var i :| 0 <= i < |xs| && xs[i] == x;
    }
  }

  lemma {:induction false} FlattenAppend<T>(a: seq<seq<T>>, b: seq<seq<T>>)
    ensures Flatten(a + b) == Flatten(a) + Flatten(b)
    decreases |b|
  {
    if b == [] {
      assert a + b == a;
    } else {
      var b', x := b[..|b| - 1], b[|b| - 1];
      assert (a + b)[..|a + b| - 1] == a + b' && (a + b)[|a + b| - 1] == x;
      FlattenAppend(a, b');
      assert Flatten(a + b) == Flatten(a + b') + x;
      assert Flatten(b) == Flatten(b') + x;
    }
  }

  /** Keeping the elements that pass a test keeps them in order. */
  lemma {:induction false} FilterSorted<T>(xs: seq<T>, key: T -> int, keep: T -> bool)
    requires SortedDesc(xs, key)
    ensures SortedDesc(Filter(xs, keep), key)
  {
    if xs != [] {
      var init, x := xs[..|xs| - 1], xs[|xs| - 1];
      assert SortedDesc(init, key);
      FilterSorted(init, key, keep);
      var f := Filter(init, keep);
      forall y | y in f ensures key(y) >= key(x) {
        var i :| 0 <= i < |init| && init[i] == y;
        assert xs[i] == y;
      }
    }
  }

  /** How many copies of `x` survive a filter. */
  lemma {:induction false} FilterCount<T>(xs: seq<T>, keep: T -> bool, x: T)
    ensures multiset(Filter(xs, keep))[x] == if keep(x) then multiset(xs)[x] else 0
  {
    if xs != [] {
      var init := xs[..|xs| - 1];
      assert xs == init + [xs[|xs| - 1]];
      FilterCount(init, keep, x);
    }
  }

  /** Filtering two arrangements of the same elements keeps the same elements. */
  lemma FilterPermutation<T>(xs: seq<T>, ys: seq<T>, keep: T -> bool)
    requires multiset(xs) == multiset(ys)
    ensures multiset(Filter(xs, keep)) == multiset(Filter(ys, keep))
  {
    forall x ensures multiset(Filter(xs, keep))[x] == multiset(Filter(ys, keep))[x] {
      FilterCount(xs, keep, x);
      FilterCount(ys, keep, x);
    }
  }

  lemma SortedSnoc<T>(xs: seq<T>, x: T, key: T -> int)
    requires SortedDesc(xs, key)
    requires forall i | 0 <= i < |xs| :: key(xs[i]) >= key(x)
    ensures SortedDesc(xs + [x], key)
  {
  }

  lemma {:induction false} InsertDescElements<T>(xs: seq<T>, x: T, key: T -> int)
    ensures multiset(InsertDesc(xs, x, key)) == multiset(xs) + multiset{x}
    ensures forall i | 0 <= i < |InsertDesc(xs, x, key)| :: InsertDesc(xs, x, key)[i] in xs + [x]
  {
    if xs == [] || key(xs[|xs| - 1]) >= key(x) {
    } else {
      var init, last := xs[..|xs| - 1], xs[|xs| - 1];
      InsertDescElements(init, x, key);
      assert xs == init + [last];
    }
  }

  lemma {:induction false} InsertDescSorted<T>(xs: seq<T>, x: T, key: T -> int)
    requires SortedDesc(xs, key)
    ensures SortedDesc(InsertDesc(xs, x, key), key)
  {
    if xs == [] || key(xs[|xs| - 1]) >= key(x) {
      SortedSnoc(xs, x, key);
    } else {
      var init, last := xs[..|xs| - 1], xs[|xs| - 1];
      assert SortedDesc(init, key);
      InsertDescSorted(init, x, key);
      InsertDescElements(init, x, key);
      var r := InsertDesc(init, x, key);
      forall i | 0 <= i < |r| ensures key(r[i]) >= key(last) {
        if r[i] != x {
          var j :| 0 <= j < |init| && init[j] == r[i];
          assert xs[j] == r[i];
        }
      }
      SortedSnoc(r, last, key);
    }
  }

  lemma FilterSingle<T>(x: T, keep: T -> bool)
    ensures Filter([x], keep) == if keep(x) then [x] else []
  {
    assert [x][..0] == [];
  }

  lemma {:induction false} InsertDescStable<T>(xs: seq<T>, x: T, key: T -> int, k: int)
    ensures Filter(InsertDesc(xs, x, key), KeyIs(key, k)) == Filter(xs, KeyIs(key, k)) + Filter([x], KeyIs(key, k))
  {
    var same := KeyIs(key, k);
    if xs == [] || key(xs[|xs| - 1]) >= key(x) {
      FilterAppend(xs, [x], same);
    } else {
      var init, last := xs[..|xs| - 1], xs[|xs| - 1];
      var r := InsertDesc(init, x, key);
      var fx, fl := Filter([x], same), Filter([last], same);
      assert fx + fl == fl + fx by {
        FilterSingle(x, same);
        FilterSingle(last, same);
      }
      calc {
        Filter(InsertDesc(xs, x, key), same);
        Filter(r + [last], same);
        { FilterAppend(r, [last], same); }
        Filter(r, same) + fl;
        { InsertDescStable(init, x, key, k); }
        (Filter(init, same) + fx) + fl;
        Filter(init, same) + (fl + fx);
        (Filter(init, same) + fl) + fx;
        { FilterAppend(init, [last], same); assert xs == init + [last]; }
        Filter(xs, same) + fx;
      }
    }
  }

  /** `SortDesc` puts the keys in non-increasing order. */
  lemma {:induction false} SortDescSorted<T>(xs: seq<T>, key: T -> int)
    ensures SortedDesc(SortDesc(xs, key), key)
    ensures multiset(SortDesc(xs, key)) == multiset(xs)
  {
    if xs != [] {
      var init, x := xs[..|xs| - 1], xs[|xs| - 1];
      var s := SortDesc(init, key);
      assert SortDesc(xs, key) == InsertDesc(s, x, key);
      SortDescSorted(init, key);
      InsertDescSorted(s, x, key);
      InsertDescElements(s, x, key);
      assert xs == init + [x];
      assert multiset(xs) == multiset(init) + multiset{x};
    }
  }

  /** `SortDesc` is stable: the elements sharing a key come out in their input order. */
  lemma {:induction false} SortDescStable<T>(xs: seq<T>, key: T -> int, k: int)
    ensures Filter(SortDesc(xs, key), KeyIs(key, k)) == Filter(xs, KeyIs(key, k))
  {
    if xs != [] {
      var init, x := xs[..|xs| - 1], xs[|xs| - 1];
      SortDescStable(init, key, k);
      InsertDescStable(SortDesc(init, key), x, key, k);
      FilterAppend(init, [x], KeyIs(key, k));
      assert xs == init + [x];
    }
  }

  /** Sorting and then filtering gives, in key order, exactly the elements the filter keeps. */
  lemma SortThenFilter<T>(xs: seq<T>, key: T -> int, keep: T -> bool)
    ensures SortedDesc(Filter(SortDesc(xs, key), keep), key)
    ensures multiset(Filter(SortDesc(xs, key), keep)) == multiset(Filter(xs, keep))
  {
    SortDescSorted(xs, key);
    FilterSorted(SortDesc(xs, key), key, keep);
    FilterPermutation(SortDesc(xs, key), xs, keep);
  }

  /** A slice of in-range bounds is the ordinary subsequence. */
  lemma PySliceInRange<T>(xs: seq<T>, i: int, j: int)
    requires 0 <= i <= j
    ensures PySlice(xs, i, j) == if i >= |xs| then [] else xs[i..if j <= |xs| then j else |xs|]
  {
  }

  /** Running the loop over two parts one after the other is running it over their concatenation. */
  lemma {:induction false} ChooseAppend<A, B>(a: seq<A>, b: seq<A>, f: A -> Option<B>)
    ensures Choose(a + b, f) == Choose(a, f) + Choose(b, f)
    decreases |b|
  {
    if b == [] {
      assert a + b == a;
    } else {
      var b' := b[..|b| - 1];
      assert (a + b)[..|a + b| - 1] == a + b';
      ChooseAppend(a, b', f);
    }
  }

  /** A value is appended exactly when some element produces it. */
  lemma {:induction false} ChooseMembers<A, B>(xs: seq<A>, f: A -> Option<B>, y: B)
    ensures y in Choose(xs, f) <==> exists i :: 0 <= i < |xs| && f(xs[i]) == Some(y)
  {
    if xs != [] {
      var init, x := xs[..|xs| - 1], xs[|xs| - 1];
      var added := match f(x) case Some(b) => [b] case None => [];
      assert Choose(xs, f) == Choose(init, f) + added;
      assert y in added <==> f(x) == Some(y);
      ChooseMembers(init, f, y);
      if exists i :: 0 <= i < |xs| && f(xs[i]) == Some(y) {
        var i :| 0 <= i < |xs| && f(xs[i]) == Some(y);
        if i < |init| {
          assert init[i] == xs[i];
        }
      }
      if exists i :: 0 <= i < |init| && f(init[i]) == Some(y) {
        var i :| 0 <= i < |init| && f(init[i]) == Some(y);
        assert xs[i] == init[i];
      }
    }
  }
}
