/** Orders and sorting shared by the correlation, metrics and JSON models.
    `Sort` stands for Go's `sort.Slice` and `sort.Strings`: wherever the order is total on the
    elements at hand, the increasing arrangement is unique, so the algorithm cannot matter. */
module Order {

  ghost predicate Transitive<T(!new)>(less: (T, T) -> bool) {
    forall a, b, c :: less(a, b) && less(b, c) ==> less(a, c)
  }

  ghost predicate Irreflexive<T(!new)>(less: (T, T) -> bool) {
    forall a :: !less(a, a)
  }

  /** Strictly increasing: no two positions are tied. */
  ghost predicate Increasing<T>(less: (T, T) -> bool, s: seq<T>) {
    forall i, j | 0 <= i < j < |s| :: less(s[i], s[j])
  }

  /** No later element is below an earlier one: what `sort.Slice` guarantees. */
  ghost predicate NonDecreasing<T>(less: (T, T) -> bool, s: seq<T>) {
    forall i, j | 0 <= i < j < |s| :: !less(s[j], s[i])
  }

  ghost predicate Distinct<T>(s: seq<T>) {
    forall i, j | 0 <= i < j < |s| :: s[i] != s[j]
  }

  ghost predicate TotalOn<T>(less: (T, T) -> bool, s: seq<T>) {
    forall i, j | 0 <= i < |s| && 0 <= j < |s| && s[i] != s[j] :: less(s[i], s[j]) || less(s[j], s[i])
  }

  ghost predicate SameElements<T(!new)>(s: seq<T>, t: seq<T>) {
    forall x :: x in s <==> x in t
  }

  function Insert<T(!new)>(less: (T, T) -> bool, x: T, s: seq<T>): (r: seq<T>)
    ensures |r| == |s| + 1
    ensures multiset(r) == multiset(s) + multiset{x}
  {
    if s == [] then [x]
    else if less(x, s[0]) then [x] + s
    else
      assert s == [s[0]] + s[1..];
      [s[0]] + Insert(less, x, s[1..])
  }

  function Sort<T(!new)>(less: (T, T) -> bool, s: seq<T>): (r: seq<T>)
    ensures |r| == |s|
    ensures multiset(r) == multiset(s)
  {
    if s == [] then []
    else
      assert s == [s[0]] + s[1..];
      Insert(less, s[0], Sort(less, s[1..]))
  }

  lemma MultisetSameElements<T(!new)>(s: seq<T>, t: seq<T>)
    requires multiset(s) == multiset(t)
    ensures SameElements(s, t)
  {
    forall x ensures x in s <==> x in t {
      assert x in s <==> x in multiset(s);
      assert x in t <==> x in multiset(t);
    }
  }

  lemma SortKeepsElements<T(!new)>(less: (T, T) -> bool, s: seq<T>)
    ensures SameElements(Sort(less, s), s)
  {
    MultisetSameElements(Sort(less, s), s);
  }

  lemma InsertKeepsElements<T(!new)>(less: (T, T) -> bool, x: T, s: seq<T>)
    ensures SameElements(Insert(less, x, s), [x] + s)
  {
    assert multiset([x] + s) == multiset(s) + multiset{x};
    MultisetSameElements(Insert(less, x, s), [x] + s);
  }

  lemma {:induction false} InsertSorted<T(!new)>(less: (T, T) -> bool, x: T, s: seq<T>)
    requires Transitive(less) && Irreflexive(less)
    requires NonDecreasing(less, s)
    ensures NonDecreasing(less, Insert(less, x, s))
  {
    if s != [] && !less(x, s[0]) {
      InsertSorted(less, x, s[1..]);
      InsertKeepsElements(less, x, s[1..]);
      var rest := Insert(less, x, s[1..]);
      forall j | 0 <= j < |rest| ensures !less(rest[j], s[0]) {
        assert rest[j] in rest;
        assert rest[j] in [x] + s[1..];
      }
    }
  }

  /** Sorting really sorts, for any transitive comparison. */
  lemma {:induction false} SortSorts<T(!new)>(less: (T, T) -> bool, s: seq<T>)
    requires Transitive(less) && Irreflexive(less)
    ensures NonDecreasing(less, Sort(less, s))
  {
    if s != [] {
      SortSorts(less, s[1..]);
      InsertSorted(less, s[0], Sort(less, s[1..]));
    }
  }

  lemma DistinctCounts<T>(s: seq<T>, x: T)
    requires Distinct(s)
    ensures multiset(s)[x] <= 1
  {
    if s != [] {
      assert s == [s[0]] + s[1..];
      DistinctCounts(s[1..], x);
      if x == s[0] { assert x !in s[1..]; }
    }
  }

  lemma CountsDistinct<T(!new)>(s: seq<T>)
    requires forall x :: multiset(s)[x] <= 1
    ensures Distinct(s)
  {
    forall i, j | 0 <= i < j < |s| ensures s[i] != s[j] {
      assert s == s[..j] + s[j..];
      assert s[i] in s[..j] && s[j] in s[j..];
      var x, tail := s[i], multiset(s[j..]);
      assert multiset(s)[x] == multiset(s[..j])[x] + tail[x];
      assert x in multiset(s[..j]) && s[j] in tail;
    }
  }

  /** On distinct, pairwise comparable elements the sorted list is strictly increasing. */
  lemma SortIncreasing<T(!new)>(less: (T, T) -> bool, s: seq<T>)
    requires Transitive(less) && Irreflexive(less)
    requires Distinct(s) && TotalOn(less, s)
    ensures Increasing(less, Sort(less, s))
    ensures SameElements(Sort(less, s), s)
  {
    SortSorts(less, s);
    SortKeepsElements(less, s);
    var r := Sort(less, s);
    forall x ensures multiset(r)[x] <= 1 { DistinctCounts(s, x); }
    CountsDistinct(r);
    forall i, j | 0 <= i < j < |r| ensures less(r[i], r[j]) {
      assert r[i] in r && r[j] in r;
      assert r[i] in s && r[j] in s;
    }
  }

  /** An increasing arrangement is determined by its elements alone. */
  lemma {:induction false} IncreasingUnique<T(!new)>(less: (T, T) -> bool, s: seq<T>, t: seq<T>)
    requires Transitive(less) && Irreflexive(less)
    requires Increasing(less, s) && Increasing(less, t)
    requires SameElements(s, t)
    ensures s == t
  {
    if s == [] {
      assert forall i | 0 <= i < |t| :: t[i] in s;
    } else {
      assert s[0] in s;
      var a, b := s[0], t[0];
      assert a in t && b in s;
      assert a == b || (less(a, b) && less(b, a));
      forall x ensures x in s[1..] <==> x in t[1..] {
        if x in s[1..] {
          assert x in s && less(s[0], x);
          assert x in t && x != t[0];
        }
        if x in t[1..] {
          assert x in t && less(t[0], x);
          assert x in s && x != s[0];
        }
      }
      IncreasingUnique(less, s[1..], t[1..]);
    }
  }

  lemma IncreasingDistinct<T(!new)>(less: (T, T) -> bool, s: seq<T>)
    requires Irreflexive(less) && Increasing(less, s)
    ensures Distinct(s)
  {
  }

  /** Sorting an already increasing list changes nothing. */
  lemma SortFixed<T(!new)>(less: (T, T) -> bool, s: seq<T>)
    requires Transitive(less) && Irreflexive(less) && Increasing(less, s)
    ensures Sort(less, s) == s
  {
    IncreasingDistinct(less, s);
    forall i, j | 0 <= i < |s| && 0 <= j < |s| && s[i] != s[j]
      ensures less(s[i], s[j]) || less(s[j], s[i])
    {
      assert i < j || j < i;
    }
    SortIncreasing(less, s);
    IncreasingUnique(less, Sort(less, s), s);
  }

  // ---- Go's string order: byte-wise lexicographic ----

  predicate StrLess(a: string, b: string) {
    b != [] && (a == [] || a[0] < b[0] || (a[0] == b[0] && StrLess(a[1..], b[1..])))
  }

  lemma {:induction false} StrLessTransitive(a: string, b: string, c: string)
    requires StrLess(a, b) && StrLess(b, c)
    ensures StrLess(a, c)
  {
    if a != [] && a[0] == b[0] && b[0] == c[0] {
      StrLessTransitive(a[1..], b[1..], c[1..]);
    }
  }

  lemma {:induction false} StrLessTotal(a: string, b: string)
    ensures a == b || StrLess(a, b) || StrLess(b, a)
  {
    if a != [] && b != [] && a[0] == b[0] {
      StrLessTotal(a[1..], b[1..]);
      assert a == [a[0]] + a[1..] && b == [b[0]] + b[1..];
    }
  }

  lemma {:induction false} StrLessIrreflexive(a: string)
    ensures !StrLess(a, a)
  {
    if a != [] { StrLessIrreflexive(a[1..]); }
  }

  /** `StrLess` is a strict total order on strings. */
  lemma StrLessOrder()
    ensures Transitive(StrLess) && Irreflexive(StrLess)
    ensures forall a, b :: a == b || StrLess(a, b) || StrLess(b, a)
  {
    forall a, b, c | StrLess(a, b) && StrLess(b, c) ensures StrLess(a, c) { StrLessTransitive(a, b, c); }
    forall a ensures !StrLess(a, a) { StrLessIrreflexive(a); }
    forall a, b ensures a == b || StrLess(a, b) || StrLess(b, a) { StrLessTotal(a, b); }
  }
}
