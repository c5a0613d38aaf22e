/** Python's `sorted`, on lists and on sets, over any strict total order. */
module Sorting {
  ghost predicate StrictTotal<T(!new)>(less: (T, T) -> bool) {
    && (forall a :: !less(a, a))
    && (forall a, b, c :: less(a, b) && less(b, c) ==> less(a, c))
    && (forall a, b :: a == b || less(a, b) || less(b, a))
  }

  ghost predicate Ordered<T(!new)>(less: (T, T) -> bool) {
    (forall a :: !less(a, a)) && (forall a, b, c :: less(a, b) && less(b, c) ==> less(a, c))
  }

  predicate Ascending<T(==)>(s: seq<T>, less: (T, T) -> bool) {
    forall i, j :: 0 <= i < j < |s| ==> !less(s[j], s[i])
  }

  predicate Strictly<T>(s: seq<T>, less: (T, T) -> bool) {
    forall i, j :: 0 <= i < j < |s| ==> less(s[i], s[j])
  }

  /** Inserts before the first greater element. */
  function Insert<T>(s: seq<T>, x: T, less: (T, T) -> bool): seq<T> {
    if s == [] then [x]
    else if less(x, s[0]) then [x] + s
    else [s[0]] + Insert(s[1..], x, less)
  }

  function Sorted<T>(s: seq<T>, less: (T, T) -> bool): seq<T> {
    if s == [] then [] else Insert(Sorted(s[..|s| - 1], less), s[|s| - 1], less)
  }

  /** Sorted, without repetition. */
  function Distinct<T(==)>(s: seq<T>, less: (T, T) -> bool): seq<T> {
    if s == [] then []
    else
      var rest := Distinct(s[..|s| - 1], less);
      if s[|s| - 1] in rest then rest else Insert(rest, s[|s| - 1], less)
  }

  lemma {:induction false} InsertKeeps<T(!new)>(s: seq<T>, x: T, less: (T, T) -> bool)
    requires Ordered(less) && Ascending(s, less)
    ensures Ascending(Insert(s, x, less), less)
    ensures multiset(Insert(s, x, less)) == multiset(s) + multiset{x}
  {
    if s == [] {
    } else if less(x, s[0]) {
      assert forall i :: 0 <= i < |s| ==> !less(s[i], x);
      assert [x] + s == Insert(s, x, less);
    } else {
      InsertKeeps(s[1..], x, less);
      var rest := Insert(s[1..], x, less);
      assert s == [s[0]] + s[1..];
      forall i | 0 <= i < |rest|
        ensures !less(rest[i], s[0])
      {
        assert rest[i] in multiset(rest);
      }
    }
  }

  lemma {:induction false} SortedKeeps<T(!new)>(s: seq<T>, less: (T, T) -> bool)
    requires Ordered(less)
    ensures Ascending(Sorted(s, less), less) && multiset(Sorted(s, less)) == multiset(s)
  {
    if s != [] {
      var n := |s| - 1;
      SortedKeeps(s[..n], less);
      InsertKeeps(Sorted(s[..n], less), s[n], less);
      assert s == s[..n] + [s[n]];
    }
  }

  lemma SameHead<T(!new)>(a: seq<T>, b: seq<T>, less: (T, T) -> bool)
    requires StrictTotal(less) && Ascending(a, less) && Ascending(b, less) && multiset(a) == multiset(b) && a != []
    ensures b != [] && a[0] == b[0]
  {
    assert a[0] in multiset(b);
    var i :| 0 <= i < |b| && b[i] == a[0];
    assert b[0] in multiset(a);
    var j :| 0 <= j < |a| && a[j] == b[0];
    assert !less(b[i], b[0]) && !less(a[j], a[0]);
  }

  /** An ascending list is determined by its elements. */
  lemma {:induction false} AscendingUnique<T(!new)>(a: seq<T>, b: seq<T>, less: (T, T) -> bool)
    requires StrictTotal(less) && Ascending(a, less) && Ascending(b, less) && multiset(a) == multiset(b)
    ensures a == b
  {
    if a == [] {
      assert |multiset(b)| == 0;
    } else {
      SameHead(a, b, less);
      assert a == [a[0]] + a[1..] && b == [b[0]] + b[1..];
      assert multiset(a[1..]) == multiset(a) - multiset{a[0]} == multiset(b[1..]);
      AscendingUnique(a[1..], b[1..], less);
    }
  }

  lemma {:induction false} DistinctKeeps<T(!new)>(s: seq<T>, less: (T, T) -> bool)
    requires StrictTotal(less)
    ensures Strictly(Distinct(s, less), less)
    ensures forall x :: x in Distinct(s, less) <==> x in s
  {
    if s != [] {
      var n := |s| - 1;
      var rest := Distinct(s[..n], less);
      DistinctKeeps(s[..n], less);
      assert s == s[..n] + [s[n]];
      if s[n] !in rest { InsertStrictly(rest, s[n], less); }
    }
  }

  lemma {:induction false} InsertStrictly<T(!new)>(s: seq<T>, x: T, less: (T, T) -> bool)
    requires StrictTotal(less) && Strictly(s, less) && x !in s
    ensures Strictly(Insert(s, x, less), less)
    ensures forall y :: y in Insert(s, x, less) <==> y in s || y == x
  {
    if s == [] {
    } else if less(x, s[0]) {
      assert forall i :: 0 <= i < |s| ==> less(x, s[i]);
    } else {
      InsertStrictly(s[1..], x, less);
      var rest := Insert(s[1..], x, less);
      forall i | 0 <= i < |rest|
        ensures less(s[0], rest[i])
      {
        assert rest[i] in s[1..] || rest[i] == x;
      }
      assert s == [s[0]] + s[1..];
    }
  }

  lemma {:induction false} InsertLength<T(!new)>(s: seq<T>, x: T, less: (T, T) -> bool)
    ensures |Insert(s, x, less)| == |s| + 1
  {
    if s != [] { InsertLength(s[1..], x, less); }
  }

  /** A strictly ascending list is determined by its set of elements. */
  lemma {:induction false} StrictlyUnique<T(!new)>(a: seq<T>, b: seq<T>, less: (T, T) -> bool)
    requires StrictTotal(less) && Strictly(a, less) && Strictly(b, less)
    requires forall x :: x in a <==> x in b
    ensures a == b
  {
    assert b != [] ==> b[0] in b;
    if a != [] {
      assert a[0] in b;
      assert b[0] in a;
      assert a[0] == b[0];
      assert a == [a[0]] + a[1..] && b == [b[0]] + b[1..];
      assert forall i :: 0 < i < |a| ==> less(a[0], a[i]);
      assert forall i :: 0 < i < |b| ==> less(b[0], b[i]);
      forall x
        ensures x in a[1..] <==> x in a && x != a[0]
        ensures x in b[1..] <==> x in b && x != b[0]
      {
      }
      StrictlyUnique(a[1..], b[1..], less);
    }
  }

  /** A permutation, cut at the place of the original's last element. */
  lemma CutLast<T>(a: seq<T>, b: seq<T>) returns (x: seq<T>, y: seq<T>)
    requires a != [] && multiset(a) == multiset(b)
    ensures b == x + [a[|a| - 1]] + y && multiset(x + y) == multiset(a[..|a| - 1])
  {
    var n := |a| - 1;
    assert a == a[..n] + [a[n]];
    assert a[n] in multiset(b);
    var i :| 0 <= i < |b| && b[i] == a[n];
    x, y := b[..i], b[i + 1..];
    assert b == x + [a[n]] + y;
    assert multiset(b) == multiset(x + y) + multiset{a[n]};
    assert multiset(a) == multiset(a[..n]) + multiset{a[n]};
    assert multiset(x + y) == multiset(b) - multiset{a[n]};
    assert multiset(a[..n]) == multiset(a) - multiset{a[n]};
  }

  // ---------------------------------------------------------------- numbers, and tuples of numbers

  const INT_LESS: (int, int) -> bool := (a: int, b: int) => a < b

  /** Python's order on tuples: the first difference decides, and a prefix comes first. */
  predicate TupleLess(a: seq<int>, b: seq<int>) {
    b != [] && (a == [] || a[0] < b[0] || (a[0] == b[0] && TupleLess(a[1..], b[1..])))
  }

  const TUPLE_LESS: (seq<int>, seq<int>) -> bool := (a: seq<int>, b: seq<int>) => TupleLess(a, b)

  lemma IntsAreOrdered()
    ensures StrictTotal(INT_LESS)
  {
  }

  lemma TuplesAreOrdered()
    ensures StrictTotal(TUPLE_LESS)
  {
    forall a ensures !TUPLE_LESS(a, a) { TupleIrreflexive(a); }
    forall a, b, c | TUPLE_LESS(a, b) && TUPLE_LESS(b, c) ensures TUPLE_LESS(a, c) { TupleTransitive(a, b, c); }
    forall a, b ensures a == b || TUPLE_LESS(a, b) || TUPLE_LESS(b, a) { TupleTotal(a, b); }
  }

  lemma {:induction false} TupleIrreflexive(a: seq<int>)
    ensures !TupleLess(a, a)
  {
    if a != [] { TupleIrreflexive(a[1..]); }
  }

  lemma {:induction false} TupleTransitive(a: seq<int>, b: seq<int>, c: seq<int>)
    requires TupleLess(a, b) && TupleLess(b, c)
    ensures TupleLess(a, c)
  {
    if a != [] && a[0] == b[0] == c[0] { TupleTransitive(a[1..], b[1..], c[1..]); }
  }

  lemma {:induction false} TupleTotal(a: seq<int>, b: seq<int>)
    ensures a == b || TupleLess(a, b) || TupleLess(b, a)
  {
    if a != [] && b != [] && a[0] == b[0] {
      TupleTotal(a[1..], b[1..]);
      assert a == [a[0]] + a[1..] && b == [b[0]] + b[1..];
    }
  }
}
