/** The days of a span that no declared interval covers, as `declared_scope_gaps` computes them
    from the sorted, clipped intervals.  Dates are consecutive day numbers. */
module DeclaredScope {
  import opened Sorting

  datatype Interval = Interval(inventory: int, first: int, last: int, completeness: int)

  datatype Gap = Gap(first: int, last: int)

  predicate InInterval(i: Interval, day: int) {
    i.first <= day <= i.last
  }

  predicate Covered(intervals: seq<Interval>, day: int) {
    exists i :: 0 <= i < |intervals| && InInterval(intervals[i], day)
  }

  predicate InGap(g: Gap, day: int) {
    g.first <= day <= g.last
  }

  predicate InGaps(gaps: seq<Gap>, day: int) {
    exists i :: 0 <= i < |gaps| && InGap(gaps[i], day)
  }

  /** Within [first, limit), the gaps hold exactly the uncovered days, in order and as long as
      they can be: at least one covered day follows each gap before the next. */
  ghost predicate GapsUpTo(gaps: seq<Gap>, intervals: seq<Interval>, first: int, limit: int) {
    && (forall day :: first <= day < limit ==> (InGaps(gaps, day) <==> !Covered(intervals, day)))
    && (forall i :: 0 <= i < |gaps| ==> first <= gaps[i].first <= gaps[i].last < limit)
    && (forall i, j :: 0 <= i < j < |gaps| ==> gaps[i].last + 1 < gaps[j].first)
  }

  /** The gaps of a whole span. */
  ghost predicate GapsOf(gaps: seq<Gap>, intervals: seq<Interval>, first: int, last: int) {
    GapsUpTo(gaps, intervals, first, last + 1) && |gaps| <= |intervals| + 1
  }

  /** These conditions leave no choice: a span has one list of gaps. */
  lemma {:induction false} GapsAreUnique(a: seq<Gap>, b: seq<Gap>, intervals: seq<Interval>, first: int, limit: int)
    requires GapsUpTo(a, intervals, first, limit) && GapsUpTo(b, intervals, first, limit)
    ensures a == b
  {
    if a != [] && b != [] {
      SameFirst(a, b, intervals, first, limit);
      SameFirst(b, a, intervals, first, limit);
      var from := a[0].last + 1;
      LaterGaps(a, intervals, first, limit);
      LaterGaps(b, intervals, first, limit);
      GapsAreUnique(a[1..], b[1..], intervals, from, limit);
      assert a == [a[0]] + a[1..] && b == [b[0]] + b[1..];
    } else if a != [] {
      assert InGap(a[0], a[0].first) && InGaps(a, a[0].first);
    } else if b != [] {
      assert InGap(b[0], b[0].first) && InGaps(b, b[0].first);
    }
  }

  /** The first gap of one list starts no later, and ends no later, than that of the other. */
  lemma SameFirst(a: seq<Gap>, b: seq<Gap>, intervals: seq<Interval>, first: int, limit: int)
    requires GapsUpTo(a, intervals, first, limit) && GapsUpTo(b, intervals, first, limit) && a != [] && b != []
    ensures a[0].first <= b[0].first && (a[0].first == b[0].first ==> a[0].last <= b[0].last)
  {
    assert InGap(b[0], b[0].first) && InGaps(b, b[0].first);
    assert InGaps(a, b[0].first);
    var after := b[0].last + 1;
    assert InGap(a[0], after) ==> InGaps(a, after);
  }

  lemma LaterGaps(gaps: seq<Gap>, intervals: seq<Interval>, first: int, limit: int)
    requires GapsUpTo(gaps, intervals, first, limit) && gaps != []
    ensures GapsUpTo(gaps[1..], intervals, gaps[0].last + 1, limit)
  {
    forall day | gaps[0].last + 1 <= day < limit
      ensures InGaps(gaps[1..], day) <==> InGaps(gaps, day)
    {
      if i :| 0 <= i < |gaps| && InGap(gaps[i], day) { assert InGap(gaps[1..][i - 1], day); }
      if i :| 0 <= i < |gaps[1..]| && InGap(gaps[1..][i], day) { assert InGap(gaps[i + 1], day); }
    }
  }

  // ---------------------------------------------------------------- the sweep

  function Max(a: int, b: int): int {
    if a >= b then a else b
  }

  function Min(a: int, b: int): int {
    if a <= b then a else b
  }

  /** The intervals that meet the span, cut to it. */
  function Clipped(intervals: seq<Interval>, first: int, last: int): seq<seq<int>> {
    if intervals == [] then []
    else
      var n := |intervals| - 1;
      Clipped(intervals[..n], first, last)
        + if intervals[n].first <= last && intervals[n].last >= first
          then [[Max(first, intervals[n].first), Min(last, intervals[n].last)]] else []
  }

  function Start(pair: seq<int>): int {
    if |pair| < 2 then 0 else pair[0]
  }

  function End(pair: seq<int>): int {
    if |pair| < 2 then 0 else pair[1]
  }

  predicate Within(pair: seq<int>, first: int, last: int) {
    |pair| == 2 && first <= pair[0] <= pair[1] <= last
  }

  predicate InPair(pair: seq<int>, day: int) {
    |pair| == 2 && pair[0] <= day <= pair[1]
  }

  lemma {:induction false} ClippedCovers(intervals: seq<Interval>, first: int, last: int, day: int)
    requires first <= day <= last
    ensures Covered(intervals, day) <==> exists p :: p in Clipped(intervals, first, last) && InPair(p, day)
  {
    if intervals != [] {
      var n := |intervals| - 1;
      ClippedCovers(intervals[..n], first, last, day);
      if i :| 0 <= i < |intervals| && InInterval(intervals[i], day) {
        if i < n {
          assert InInterval(intervals[..n][i], day);
        } else {
          assert InPair([Max(first, intervals[n].first), Min(last, intervals[n].last)], day);
        }
      }
      if i :| 0 <= i < |intervals[..n]| && InInterval(intervals[..n][i], day) { assert InInterval(intervals[i], day); }
      if p :| p in Clipped(intervals, first, last) && p !in Clipped(intervals[..n], first, last) && InPair(p, day) {
        assert InInterval(intervals[n], day);
      }
    }
  }

  lemma {:induction false} ClippedShape(intervals: seq<Interval>, first: int, last: int)
    requires first <= last && forall i :: i in intervals ==> i.first <= i.last
    ensures |Clipped(intervals, first, last)| <= |intervals|
    ensures forall p :: p in Clipped(intervals, first, last) ==> Within(p, first, last)
  {
    if intervals != [] { ClippedShape(intervals[..|intervals| - 1], first, last); }
  }

  /** What the sweep has established after some pairs, in ascending order of their starts. */
  ghost predicate Swept(gaps: seq<Gap>, pairs: seq<seq<int>>, i: nat, cursor: int, intervals: seq<Interval>, first: int, last: int) {
    && i <= |pairs| && first <= cursor <= last + 1 && |gaps| <= i
    && GapsUpTo(gaps, intervals, first, cursor) && (gaps != [] ==> gaps[|gaps| - 1].last + 1 < cursor)
    && forall k :: 0 <= k < i ==> End(pairs[k]) < cursor
  }

  /** The pairs are the clipped intervals, sorted. */
  ghost predicate Sweep(pairs: seq<seq<int>>, intervals: seq<Interval>, first: int, last: int) {
    && (forall p :: p in pairs ==> Within(p, first, last))
    && (forall i, j :: 0 <= i < j < |pairs| ==> Start(pairs[i]) <= Start(pairs[j]))
    && forall day :: first <= day <= last ==> (Covered(intervals, day) <==> exists p :: p in pairs && InPair(p, day))
  }

  lemma SortedPairs(intervals: seq<Interval>, first: int, last: int)
    requires first <= last && forall i :: i in intervals ==> i.first <= i.last
    ensures Sweep(Sorted(Clipped(intervals, first, last), TUPLE_LESS), intervals, first, last)
    ensures |Sorted(Clipped(intervals, first, last), TUPLE_LESS)| <= |intervals|
  {
    hide Sorted, Covered;
    var clipped := Clipped(intervals, first, last);
    var pairs := Sorted(clipped, TUPLE_LESS);
    TuplesAreOrdered();
    SortedKeeps(clipped, TUPLE_LESS);
    ClippedShape(intervals, first, last);
    assert |pairs| == |multiset(pairs)| == |clipped|;
    forall p
      ensures p in pairs <==> p in clipped
    {
      assert p in pairs <==> p in multiset(pairs);
    }
    forall i, j | 0 <= i < j < |pairs|
      ensures Start(pairs[i]) <= Start(pairs[j])
    {
      assert !TUPLE_LESS(pairs[j], pairs[i]);
      assert Within(pairs[i], first, last) && Within(pairs[j], first, last);
    }
    forall day | first <= day <= last
      ensures Covered(intervals, day) <==> exists p :: p in pairs && InPair(p, day)
    {
      ClippedCovers(intervals, first, last, day);
    }
  }

  /** Up to where the next pair starts, no pair covers a day from the cursor on. */
  lemma OpenDays(gaps: seq<Gap>, pairs: seq<seq<int>>, i: nat, cursor: int, intervals: seq<Interval>, first: int, last: int, day: int)
    requires Sweep(pairs, intervals, first, last) && Swept(gaps, pairs, i, cursor, intervals, first, last)
    requires cursor <= day <= last && (i < |pairs| ==> day < Start(pairs[i]))
    ensures !Covered(intervals, day)
  {
    hide Covered, GapsUpTo;
    forall p | p in pairs
      ensures !InPair(p, day)
    {
      var k :| 0 <= k < |pairs| && pairs[k] == p;
      if k >= i { assert Start(pairs[i]) <= Start(pairs[k]); }
    }
  }

  /** A gap before the next pair, if there is one. */
  function Opened(gaps: seq<Gap>, cursor: int, left: int): seq<Gap> {
    if left > cursor then gaps + [Gap(cursor, left - 1)] else gaps
  }

  lemma GapOpened(gaps: seq<Gap>, pairs: seq<seq<int>>, i: nat, cursor: int, intervals: seq<Interval>, first: int, last: int, left: int)
    requires Sweep(pairs, intervals, first, last) && Swept(gaps, pairs, i, cursor, intervals, first, last)
    requires if i < |pairs| then left == Start(pairs[i]) else left == last + 1
    ensures GapsUpTo(Opened(gaps, cursor, left), intervals, first, Max(cursor, left))
    ensures |Opened(gaps, cursor, left)| <= i + 1
  {
    hide Covered, Sweep;
    var longer := Opened(gaps, cursor, left);
    assert i < |pairs| ==> Within(pairs[i], first, last) by { PairAt(pairs, i, intervals, first, last); }
    forall day | first <= day < Max(cursor, left)
      ensures InGaps(longer, day) <==> !Covered(intervals, day)
    {
      if day < cursor {
        if k :| 0 <= k < |gaps| && InGap(gaps[k], day) { assert longer[k] == gaps[k]; }
      } else {
        OpenDays(gaps, pairs, i, cursor, intervals, first, last, day);
        assert InGap(longer[|gaps|], day);
      }
    }
  }

  lemma PairAt(pairs: seq<seq<int>>, i: nat, intervals: seq<Interval>, first: int, last: int)
    requires Sweep(pairs, intervals, first, last)
    ensures i < |pairs| ==> pairs[i] in pairs && Within(pairs[i], first, last)
  {
  }

  lemma PairPassed(gaps: seq<Gap>, pairs: seq<seq<int>>, i: nat, cursor: int, intervals: seq<Interval>, first: int, last: int)
    requires Sweep(pairs, intervals, first, last) && Swept(gaps, pairs, i, cursor, intervals, first, last) && i < |pairs|
    ensures Swept(Opened(gaps, cursor, Start(pairs[i])), pairs, i + 1,
                  if End(pairs[i]) >= cursor then End(pairs[i]) + 1 else cursor, intervals, first, last)
  {
    hide Covered;
    var left, right := Start(pairs[i]), End(pairs[i]);
    var longer, next := Opened(gaps, cursor, left), if right >= cursor then right + 1 else cursor;
    PairAt(pairs, i, intervals, first, last);
    GapOpened(gaps, pairs, i, cursor, intervals, first, last, left);
    forall day | Max(cursor, left) <= day < next
      ensures Covered(intervals, day) && !InGaps(longer, day)
    {
      assert InPair(pairs[i], day);
    }
    assert longer != [] ==> longer[|longer| - 1].last + 1 < next;
  }

  lemma NothingSwept(pairs: seq<seq<int>>, intervals: seq<Interval>, first: int, last: int)
    requires first <= last
    ensures Swept([], pairs, 0, first, intervals, first, last)
  {
  }

  /** `declared_scope_gaps`. */
  method ScopeGaps(intervals: seq<Interval>, first: int, last: int) returns (gaps: seq<Gap>)
    requires first <= last && forall i :: i in intervals ==> i.first <= i.last
    ensures GapsOf(gaps, intervals, first, last)
  {
    hide Sorted, Swept, Sweep, GapsUpTo, Covered;
    var pairs := Sorted(Clipped(intervals, first, last), TUPLE_LESS);
    SortedPairs(intervals, first, last);
    var cursor := first;
    gaps := [];
    NothingSwept(pairs, intervals, first, last);
    for i := 0 to |pairs|
      invariant Swept(gaps, pairs, i, cursor, intervals, first, last)
    {
      PairAt(pairs, i, intervals, first, last);
      PairPassed(gaps, pairs, i, cursor, intervals, first, last);
      var left, right := Start(pairs[i]), End(pairs[i]);
      if left > cursor {
        gaps := gaps + [Gap(cursor, left - 1)];
      }
      if right >= cursor {
        cursor := right + 1;
      }
    }
    GapOpened(gaps, pairs, |pairs|, cursor, intervals, first, last, last + 1);
    CursorBound(gaps, pairs, |pairs|, cursor, intervals, first, last);
    if cursor <= last {
      gaps := gaps + [Gap(cursor, last)];
    }
  }

  lemma CursorBound(gaps: seq<Gap>, pairs: seq<seq<int>>, i: nat, cursor: int, intervals: seq<Interval>, first: int, last: int)
    requires Swept(gaps, pairs, i, cursor, intervals, first, last)
    ensures cursor <= last + 1
  {
  }
}
