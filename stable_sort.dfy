/** A stable insertion sort over a strict weak order `lt`: the behaviour
    that `slice::sort_by_key` promises (sorted, a permutation, and equal
    keys in their original order), stated for an abstract comparison. */
module StableSort {

  /** `lt` is asymmetric and its negation is transitive: a strict weak order,
      what a comparison of keys under a total order is. */
  ghost predicate WeakOrder<T(!new)>(lt: (T, T) -> bool)
  {
    && (forall a, b :: lt(a, b) ==> !lt(b, a))
    && (forall a, b, c :: !lt(b, a) && !lt(c, b) ==> !lt(c, a))
  }

  /** Neither sorts before the other: equal keys. */
  predicate Tied<T>(lt: (T, T) -> bool, a: T, b: T)
  {
    !lt(a, b) && !lt(b, a)
  }

  /** Non-decreasing under `lt`. */
  predicate Sorted<T>(s: seq<T>, lt: (T, T) -> bool)
  {
    forall i, j :: 0 <= i < j < |s| ==> !lt(s[j], s[i])
  }

  /** Insertion of `x` after every entry that does not sort after it, found
      by scanning from the end: the step of a stable insertion sort. */
  function Insert<T>(sorted: seq<T>, x: T, lt: (T, T) -> bool): (r: seq<T>)
    ensures multiset(r) == multiset(sorted) + multiset{x}
    decreases |sorted|
  {
    if sorted == [] then [x]
    else
      var n := |sorted| - 1;
      if lt(x, sorted[n]) then
        assert sorted == sorted[..n] + [sorted[n]];
        Insert(sorted[..n], x, lt) + [sorted[n]]
      else
        sorted + [x]
  }

  function SortBy<T>(s: seq<T>, lt: (T, T) -> bool): seq<T>
    decreases |s|
  {
    if s == [] then [] else Insert(SortBy(s[..|s| - 1], lt), s[|s| - 1], lt)
  }

  lemma {:induction false} InsertSorted<T(!new)>(sorted: seq<T>, x: T, lt: (T, T) -> bool)
    requires WeakOrder(lt)
    requires Sorted(sorted, lt)
    ensures Sorted(Insert(sorted, x, lt), lt)
    decreases |sorted|
  {
    if sorted != [] {
      var n := |sorted| - 1;
      if lt(x, sorted[n]) {
        assert Sorted(sorted[..n], lt);
        InsertSorted(sorted[..n], x, lt);
        InsertBeforeLastSorted(sorted, x, lt);
      } else {
        AppendSorted(sorted, x, lt);
      }
    }
  }

  /** `x` goes before the last entry: the sorted insertion into the rest,
      followed by that last entry, is sorted. */
  lemma InsertBeforeLastSorted<T(!new)>(sorted: seq<T>, x: T, lt: (T, T) -> bool)
    requires WeakOrder(lt)
    requires Sorted(sorted, lt) && |sorted| > 0 && lt(x, sorted[|sorted| - 1])
    requires Sorted(Insert(sorted[..|sorted| - 1], x, lt), lt)
    ensures Sorted(Insert(sorted, x, lt), lt)
  {
    var n := |sorted| - 1;
    var last := sorted[n];
    var front := Insert(sorted[..n], x, lt);
    forall e | e in front ensures !lt(last, e) {
      assert e in multiset(front);
      if e != x {
        assert e in sorted[..n];
      }
    }
    var r := front + [last];
    forall i, j | 0 <= i < j < |r| ensures !lt(r[j], r[i]) {
      if j < |front| {
        assert r[i] == front[i] && r[j] == front[j];
      } else {
        assert r[i] == front[i] && r[i] in front;
      }
    }
  }

  /** `x` does not sort before the last entry: appending it keeps the order. */
  lemma AppendSorted<T(!new)>(sorted: seq<T>, x: T, lt: (T, T) -> bool)
    requires WeakOrder(lt)
    requires Sorted(sorted, lt) && |sorted| > 0 && !lt(x, sorted[|sorted| - 1])
    ensures Sorted(sorted + [x], lt)
  {
    var n := |sorted| - 1;
    var r := sorted + [x];
    forall i, j | 0 <= i < j < |r| ensures !lt(r[j], r[i]) {
      if j == n + 1 && i < n {
        assert !lt(sorted[n], sorted[i]);
      }
    }
  }

  lemma {:induction false} SortBySorted<T(!new)>(s: seq<T>, lt: (T, T) -> bool)
    requires WeakOrder(lt)
    ensures Sorted(SortBy(s, lt), lt)
    decreases |s|
  {
    if s != [] {
      SortBySorted(s[..|s| - 1], lt);
      InsertSorted(SortBy(s[..|s| - 1], lt), s[|s| - 1], lt);
    }
  }

  lemma {:induction false} SortByPermutation<T>(s: seq<T>, lt: (T, T) -> bool)
    ensures multiset(SortBy(s, lt)) == multiset(s)
    decreases |s|
  {
    if s != [] {
      var n := |s| - 1;
      SortByPermutation(s[..n], lt);
      assert s == s[..n] + [s[n]];
    }
  }

  /** The entries tied with `y`, in order. */
  function TiedWith<T>(s: seq<T>, y: T, lt: (T, T) -> bool): seq<T>
    decreases |s|
  {
    if s == [] then []
    else TiedWith(s[..|s| - 1], y, lt) + (if Tied(lt, s[|s| - 1], y) then [s[|s| - 1]] else [])
  }

  lemma TiedWithSingle<T>(x: T, y: T, lt: (T, T) -> bool)
    ensures TiedWith([x], y, lt) == if Tied(lt, x, y) then [x] else []
  {
    assert [x][..0] == [];
  }

  lemma {:induction false} TiedWithAppend<T>(s: seq<T>, t: seq<T>, y: T, lt: (T, T) -> bool)
    ensures TiedWith(s + t, y, lt) == TiedWith(s, y, lt) + TiedWith(t, y, lt)
    decreases |t|
  {
    if t == [] {
      assert s + t == s;
    } else {
      var n := |t| - 1;
      assert (s + t)[..|s + t| - 1] == s + t[..n];
      TiedWithAppend(s, t[..n], y, lt);
    }
  }

  lemma {:induction false} InsertStable<T(!new)>(sorted: seq<T>, x: T, y: T, lt: (T, T) -> bool)
    requires WeakOrder(lt)
    ensures TiedWith(Insert(sorted, x, lt), y, lt) == TiedWith(sorted, y, lt) + TiedWith([x], y, lt)
    decreases |sorted|
  {
    if sorted != [] {
      var n := |sorted| - 1;
      var init, last := sorted[..n], sorted[n];
      var wx, wl, wi := TiedWith([x], y, lt), TiedWith([last], y, lt), TiedWith(init, y, lt);
      if lt(x, last) {
        var front := Insert(init, x, lt);
        calc {
          TiedWith(Insert(sorted, x, lt), y, lt);
          == { InsertUnfold(sorted, x, lt); }
          TiedWith(front + [last], y, lt);
          == { TiedWithAppend(front, [last], y, lt); }
          TiedWith(front, y, lt) + wl;
          == { InsertStable(init, x, y, lt); }
          wi + wx + wl;
          == { TiedExclusive(x, last, y, lt); TiedWithSingle(x, y, lt); TiedWithSingle(last, y, lt);
               SwapLastTwo(wi, wx, wl); }
          wi + wl + wx;
          == { TiedWithUnfold(sorted, y, lt); }
          TiedWith(sorted, y, lt) + wx;
        }
      } else {
        InsertKeep(sorted, x, lt);
        TiedWithAppend(sorted, [x], y, lt);
      }
    }
  }

  lemma SwapLastTwo<T>(a: seq<T>, b: seq<T>, c: seq<T>)
    requires b == [] || c == []
    ensures a + b + c == a + c + b
  {
  }

  /** Two entries tied with the same `y` do not sort strictly one before the
      other. */
  lemma TiedExclusive<T(!new)>(a: T, b: T, y: T, lt: (T, T) -> bool)
    requires WeakOrder(lt) && lt(a, b)
    ensures !(Tied(lt, a, y) && Tied(lt, b, y))
  {
  }

  lemma InsertKeep<T>(sorted: seq<T>, x: T, lt: (T, T) -> bool)
    requires |sorted| > 0 && !lt(x, sorted[|sorted| - 1])
    ensures Insert(sorted, x, lt) == sorted + [x]
  {
  }

  lemma TiedWithUnfold<T>(s: seq<T>, y: T, lt: (T, T) -> bool)
    requires |s| > 0
    ensures TiedWith(s, y, lt) == TiedWith(s[..|s| - 1], y, lt) + TiedWith([s[|s| - 1]], y, lt)
  {
    TiedWithSingle(s[|s| - 1], y, lt);
  }

  /** Stability: the entries tied with any `y` keep their relative order. */
  lemma {:induction false} SortByStable<T(!new)>(s: seq<T>, y: T, lt: (T, T) -> bool)
    requires WeakOrder(lt)
    ensures TiedWith(SortBy(s, lt), y, lt) == TiedWith(s, y, lt)
    decreases |s|
  {
    if s != [] {
      var n := |s| - 1;
      SortByStable(s[..n], y, lt);
      InsertStable(SortBy(s[..n], lt), s[n], y, lt);
      TiedWithSingle(s[n], y, lt);
    }
  }

  /** Insertion by a scan from the end: `x` lands after position `j - 1`,
      which does not sort after it, and before every later entry. */
  lemma {:induction false} InsertAt<T>(sorted: seq<T>, x: T, j: int, lt: (T, T) -> bool)
    requires 0 <= j <= |sorted|
    requires j == 0 || !lt(x, sorted[j - 1])
    requires forall m :: j <= m < |sorted| ==> lt(x, sorted[m])
    ensures Insert(sorted, x, lt) == sorted[..j] + [x] + sorted[j..]
    decreases |sorted|
  {
    if sorted == [] {
    } else if j == |sorted| {
      assert sorted[..j] == sorted && sorted[j..] == [];
    } else {
      var n := |sorted| - 1;
      var init := sorted[..n];
      assert j == 0 || init[j - 1] == sorted[j - 1];
      assert forall m :: j <= m < |init| ==> init[m] == sorted[m];
      InsertAt(init, x, j, lt);
      InsertAtLast(sorted, x, j, lt);
    }
  }

  /** The step of `InsertAt` past the last entry, which sorts after `x`. */
  lemma InsertAtLast<T>(sorted: seq<T>, x: T, j: int, lt: (T, T) -> bool)
    requires 0 <= j < |sorted| && lt(x, sorted[|sorted| - 1])
    requires Insert(sorted[..|sorted| - 1], x, lt) == sorted[..|sorted| - 1][..j] + [x] + sorted[..|sorted| - 1][j..]
    ensures Insert(sorted, x, lt) == sorted[..j] + [x] + sorted[j..]
  {
    InsertUnfold(sorted, x, lt);
    SpliceLast(sorted, j, x);
  }

  lemma InsertUnfold<T>(sorted: seq<T>, x: T, lt: (T, T) -> bool)
    requires |sorted| > 0 && lt(x, sorted[|sorted| - 1])
    ensures Insert(sorted, x, lt) == Insert(sorted[..|sorted| - 1], x, lt) + [sorted[|sorted| - 1]]
  {
  }

  lemma SpliceLast<T>(s: seq<T>, j: int, x: T)
    requires 0 <= j < |s|
    ensures s[..|s| - 1][..j] + [x] + s[..|s| - 1][j..] + [s[|s| - 1]] == s[..j] + [x] + s[j..]
  {
    var n := |s| - 1;
    var init, last := s[..n], s[n];
    var a, b := init[..j], init[j..];
    assert a == s[..j];
    assert b + [last] == s[j..];
    assert a + [x] + b + [last] == a + [x] + (b + [last]);
  }

  lemma SortByStep<T>(s: seq<T>, i: int, lt: (T, T) -> bool)
    requires 0 <= i < |s|
    ensures SortBy(s[..i + 1], lt) == Insert(SortBy(s[..i], lt), s[i], lt)
  {
    assert s[..i + 1][..i] == s[..i];
  }

  /** One step of the in-place sort: `a[..i]` is sorted, and `a[i]` is
      swapped down past every entry that sorts after it. */
  method InsertLast<T>(a: array<T>, i: int, lt: (T, T) -> bool)
    requires 0 <= i < a.Length
    modifies a
    ensures a[..i + 1] == Insert(old(a[..i]), old(a[i]), lt)
    ensures forall m :: i < m < a.Length ==> a[m] == old(a[m])
  {
    ghost var prefix := a[..i];
    var x := a[i];
    var j := i;
    while j > 0 && lt(x, a[j - 1])
      invariant 0 <= j <= i
      invariant forall m :: 0 <= m < j ==> a[m] == prefix[m]
      invariant a[j] == x
      invariant forall m :: j < m <= i ==> a[m] == prefix[m - 1]
      invariant forall m :: i < m < a.Length ==> a[m] == old(a[m])
      invariant forall m :: j <= m < i ==> lt(x, prefix[m])
    {
      a[j - 1], a[j] := a[j], a[j - 1];
      j := j - 1;
    }
    Spliced(a[..i + 1], prefix, x, j, lt);
  }

  /** The state the scan of `InsertLast` stops in: `x` sits at `j`, the
      entries of `prefix` before it are in place and those after it are
      shifted up by one; that is the insertion of `x` into `prefix`. */
  lemma Spliced<T>(s: seq<T>, prefix: seq<T>, x: T, j: int, lt: (T, T) -> bool)
    requires 0 <= j <= |prefix| && |s| == |prefix| + 1
    requires forall m :: 0 <= m < j ==> s[m] == prefix[m]
    requires s[j] == x
    requires forall m :: j < m < |s| ==> s[m] == prefix[m - 1]
    requires j == 0 || !lt(x, prefix[j - 1])
    requires forall m :: j <= m < |prefix| ==> lt(x, prefix[m])
    ensures s == Insert(prefix, x, lt)
  {
    InsertAt(prefix, x, j, lt);
    SplicedShape(s, prefix, x, j);
  }

  lemma SplicedShape<T>(s: seq<T>, prefix: seq<T>, x: T, j: int)
    requires 0 <= j <= |prefix| && |s| == |prefix| + 1
    requires forall m :: 0 <= m < j ==> s[m] == prefix[m]
    requires s[j] == x
    requires forall m :: j < m < |s| ==> s[m] == prefix[m - 1]
    ensures s == prefix[..j] + [x] + prefix[j..]
  {
    var t := prefix[..j] + [x] + prefix[j..];
    forall m | 0 <= m < |s| ensures s[m] == t[m] {
      if m < j {
        assert t[m] == prefix[..j][m];
      } else if m > j {
        assert t[m] == prefix[j..][m - j - 1];
      }
    }
  }

  /** One round of the outer loop of `SortInPlace`: if the array held the
      sorted first `i` inputs followed by the untouched rest (`before`), and
      `a[i]` was then inserted (`after`), it holds the sorted first `i + 1`
      inputs followed by the untouched rest. */
  lemma SortStep<T>(input: seq<T>, i: int, before: seq<T>, after: seq<T>, lt: (T, T) -> bool)
    requires 0 <= i < |input| && |before| == |input| && |after| == |input|
    requires before[..i] == SortBy(input[..i], lt) && before[i..] == input[i..]
    requires after[..i + 1] == Insert(before[..i], before[i], lt)
    requires forall m :: i < m < |after| ==> after[m] == before[m]
    ensures after[..i + 1] == SortBy(input[..i + 1], lt)
    ensures after[i + 1..] == input[i + 1..]
  {
    SortByStep(input, i, lt);
    assert before[i] == input[i];
    assert forall m :: i < m < |after| ==> after[m] == input[m];
  }

  /** Insertion sort in place on an array, specified by `SortBy`. */
  method SortInPlace<T>(a: array<T>, lt: (T, T) -> bool)
    modifies a
    ensures a[..] == SortBy(old(a[..]), lt)
  {
    ghost var input := a[..];
    var i := 0;
    while i < a.Length
      invariant 0 <= i <= a.Length
      invariant a[..i] == SortBy(input[..i], lt)
      invariant a[i..] == input[i..]
    {
      ghost var before := a[..];
      InsertLast(a, i, lt);
      SortStep(input, i, before, a[..], lt);
      i := i + 1;
    }
    assert a[..] == a[..i];
    assert input[..i] == input;
  }
}
