/** Descriptive reconciliation of native corporate actions with independent sources, by exact
    event key.  Strings are represented by integers in the same order. */
module EffectiveDates {
  import opened Options
  import opened Sorting
  import opened DeclaredScope

  const MAX_INVENTORIES := 16
  const MAX_GAPS := 32
  const MAX_INDEPENDENT := 20000
  const MAX_PAIRS := 2000000
  const MAX_CONFLICTS := 20000

  datatype Disposition = UnknownDate | BeforeDataset | AfterDataset | InDataset

  datatype Status = Confirmed | Scheduled | Cancelled | Revised | UnknownStatus

  datatype Row = Row(id: int, kind: int, date: Option<int>, symbols: seq<int>, disposition: Disposition, status: Status)

  /** One independent source: what it declares to cover, and its rows. */
  datatype Inventory = Inventory(
    id: int, body: int, symbols: seq<int>, kinds: seq<int>, first: int, last: int, completeness: int, rows: seq<Row>)

  datatype SourceRow = SourceRow(id: int, observed: nat, symbols: seq<int>)

  /** One place of the coverage matrix. */
  datatype Cell = Cell(symbol: int, kind: int, count: nat, dates: seq<int>, intervals: seq<Interval>, gaps: seq<Gap>)

  type Key = seq<int>

  datatype Group = Group(key: Key, native: seq<int>, independent: seq<int>)

  datatype Bucket = Match | NativeOnly | IndependentOnly | Ambiguous

  datatype Conflict =
    | StatusConflict(id: int, status: Status)
    | PossibleConflict(native: seq<int>, independent: seq<int>, symbols: bool)

  datatype Report = Report(
    matches: seq<Group>, nativeOnly: seq<Group>, independentOnly: seq<Group>, ambiguous: seq<Group>,
    unknown: seq<(bool, int)>, conflicts: seq<Conflict>, matrix: seq<Cell>, sources: seq<SourceRow>)

  // ---------------------------------------------------------------- rows and keys

  function DispositionOf(date: Option<int>, first: int, last: int): Disposition {
    if date.None? then UnknownDate
    else if date.value < first then BeforeDataset
    else if date.value > last then AfterDataset
    else InDataset
  }

  /** `_key`: type, date and the sorted distinct symbols. */
  function KeyOf(r: Row): Key
    requires r.date.Some?
  {
    [r.kind, r.date.value] + Distinct(r.symbols, INT_LESS)
  }

  /** Whether a row takes part in the comparison by key. */
  predicate Counts(r: Row): (c: bool)
    ensures c ==> r.date.Some?
  {
    r.date.Some? && r.disposition.InDataset? && r.status.Confirmed?
  }

  /** The rows of one side that are compared, as (key, id) pairs in input order. */
  function Keyed(rows: seq<Row>): seq<(Key, int)> {
    if rows == [] then []
    else
      var r := rows[|rows| - 1];
      Keyed(rows[..|rows| - 1]) + if Counts(r) then [(KeyOf(r), r.id)] else []
  }

  /** A native row carries no status; it counts whenever it is dated and in the dataset. */
  function NativeRow(r: Row): Row {
    r.(status := Confirmed)
  }

  function Native(rows: seq<Row>): seq<Row> {
    seq(|rows|, i requires 0 <= i < |rows| => NativeRow(rows[i]))
  }

  function Independent(rows: seq<Row>, first: int, last: int): seq<Row> {
    seq(|rows|, i requires 0 <= i < |rows| => rows[i].(disposition := DispositionOf(rows[i].date, first, last)))
  }

  // ---------------------------------------------------------------- grouping, as a function of the pairs

  function IdsOf(pairs: seq<(Key, int)>, k: Key): seq<int> {
    if pairs == [] then []
    else
      var p := pairs[|pairs| - 1];
      IdsOf(pairs[..|pairs| - 1], k) + if p.0 == k then [p.1] else []
  }

  function KeysOf(pairs: seq<(Key, int)>): seq<Key> {
    seq(|pairs|, i requires 0 <= i < |pairs| => pairs[i].0)
  }

  /** All keys of both sides, sorted. */
  function Keys(left: seq<(Key, int)>, right: seq<(Key, int)>): seq<Key> {
    Distinct(KeysOf(left) + KeysOf(right), TUPLE_LESS)
  }

  function GroupOf(left: seq<(Key, int)>, right: seq<(Key, int)>, k: Key): Group {
    Group(k, Sorted(IdsOf(left, k), INT_LESS), Sorted(IdsOf(right, k), INT_LESS))
  }

  function GroupsOf(left: seq<(Key, int)>, right: seq<(Key, int)>, keys: seq<Key>): seq<Group> {
    seq(|keys|, i requires 0 <= i < |keys| => GroupOf(left, right, keys[i]))
  }

  function BucketOf(g: Group): Bucket {
    if |g.native| > 1 || |g.independent| > 1 then Ambiguous
    else if g.native != [] && g.independent != [] then Match
    else if g.native != [] then NativeOnly
    else IndependentOnly
  }

  function Select(groups: seq<Group>, b: Bucket): seq<Group> {
    if groups == [] then []
    else
      var g := groups[|groups| - 1];
      Select(groups[..|groups| - 1], b) + if BucketOf(g) == b then [g] else []
  }

  function Groups(left: seq<(Key, int)>, right: seq<(Key, int)>): seq<Group> {
    GroupsOf(left, right, Keys(left, right))
  }

  // ---------------------------------------------------------------- conservation

  function NativeIds(groups: seq<Group>): multiset<int> {
    if groups == [] then multiset{} else NativeIds(groups[..|groups| - 1]) + multiset(groups[|groups| - 1].native)
  }

  function IndependentIds(groups: seq<Group>): multiset<int> {
    if groups == [] then multiset{} else IndependentIds(groups[..|groups| - 1]) + multiset(groups[|groups| - 1].independent)
  }

  function Ids(pairs: seq<(Key, int)>): seq<int> {
    seq(|pairs|, i requires 0 <= i < |pairs| => pairs[i].1)
  }

  /** The ids under a list of keys, key by key. */
  function UnderKeys(pairs: seq<(Key, int)>, keys: seq<Key>): multiset<int> {
    if keys == [] then multiset{} else UnderKeys(pairs, keys[..|keys| - 1]) + multiset(IdsOf(pairs, keys[|keys| - 1]))
  }

  lemma {:induction false} NothingUnderKeys(keys: seq<Key>)
    ensures UnderKeys([], keys) == multiset{}
  {
    if keys != [] { NothingUnderKeys(keys[..|keys| - 1]); }
  }

  lemma IdsOfAppend(pairs: seq<(Key, int)>, p: (Key, int), k: Key)
    ensures IdsOf(pairs + [p], k) == IdsOf(pairs, k) + if p.0 == k then [p.1] else []
    ensures multiset(IdsOf(pairs + [p], k)) == multiset(IdsOf(pairs, k)) + if p.0 == k then multiset{p.1} else multiset{}
  {
    assert (pairs + [p])[..|pairs|] == pairs;
  }

  /** One more pair adds its id under its own key, and under no other. */
  lemma {:induction false} OneMoreUnderKeys(pairs: seq<(Key, int)>, p: (Key, int), keys: seq<Key>)
    requires forall i, j :: 0 <= i < j < |keys| ==> keys[i] != keys[j]
    ensures UnderKeys(pairs + [p], keys) == UnderKeys(pairs, keys) + if p.0 in keys then multiset{p.1} else multiset{}
  {
    hide IdsOf;
    if keys != [] {
      var n := |keys| - 1;
      OneMoreUnderKeys(pairs, p, keys[..n]);
      IdsOfAppend(pairs, p, keys[n]);
      SumMoves(UnderKeys(pairs, keys[..n]), multiset(IdsOf(pairs, keys[n])), multiset{p.1});
      assert keys == keys[..n] + [keys[n]];
      if p.0 == keys[n] {
        assert p.0 !in keys[..n];
      } else {
        assert p.0 in keys <==> p.0 in keys[..n];
      }
    }
  }

  lemma SumMoves(a: multiset<int>, b: multiset<int>, x: multiset<int>)
    ensures (a + x) + b == (a + b) + x == a + (b + x)
    ensures a + multiset{} == a && b + multiset{} == b && (a + b) + multiset{} == a + b
  {
  }

  /** Distinct keys that cover all pairs hold every id exactly as often as the pairs do. */
  lemma {:induction false} AllUnderKeys(pairs: seq<(Key, int)>, keys: seq<Key>)
    requires forall i, j :: 0 <= i < j < |keys| ==> keys[i] != keys[j]
    requires forall p :: p in pairs ==> p.0 in keys
    ensures UnderKeys(pairs, keys) == multiset(Ids(pairs))
  {
    if pairs == [] {
      NothingUnderKeys(keys);
    } else {
      var n := |pairs| - 1;
      AllUnderKeys(pairs[..n], keys);
      assert pairs == pairs[..n] + [pairs[n]];
      OneMoreUnderKeys(pairs[..n], pairs[n], keys);
      assert Ids(pairs) == Ids(pairs[..n]) + [pairs[n].1];
    }
  }

  lemma {:induction false} GroupedIds(left: seq<(Key, int)>, right: seq<(Key, int)>, keys: seq<Key>)
    ensures NativeIds(GroupsOf(left, right, keys)) == UnderKeys(left, keys)
    ensures IndependentIds(GroupsOf(left, right, keys)) == UnderKeys(right, keys)
  {
    if keys != [] {
      var n := |keys| - 1;
      GroupedIds(left, right, keys[..n]);
      assert GroupsOf(left, right, keys)[..n] == GroupsOf(left, right, keys[..n]);
      IntsAreOrdered();
      SortedKeeps(IdsOf(left, keys[n]), INT_LESS);
      SortedKeeps(IdsOf(right, keys[n]), INT_LESS);
    }
  }

  lemma SelectedIds(groups: seq<Group>, g: Group, b: Bucket)
    ensures NativeIds(Select(groups + [g], b))
              == NativeIds(Select(groups, b)) + if BucketOf(g) == b then multiset(g.native) else multiset{}
    ensures IndependentIds(Select(groups + [g], b))
              == IndependentIds(Select(groups, b)) + if BucketOf(g) == b then multiset(g.independent) else multiset{}
  {
    assert (groups + [g])[..|groups|] == groups;
    var s := Select(groups, b);
    assert (s + [g])[..|s|] == s;
    assert s + [] == s;
  }

  lemma FourParts(a: multiset<int>, b: multiset<int>, c: multiset<int>, d: multiset<int>, t: multiset<int>, x: multiset<int>)
    requires a + b + c + d == t
    ensures (a + x) + b + c + d == t + x && a + (b + x) + c + d == t + x
    ensures a + b + (c + x) + d == t + x && a + b + c + (d + x) == t + x
    ensures a + multiset{} == a && b + multiset{} == b && c + multiset{} == c && d + multiset{} == d
  {
  }

  /** The four buckets split the groups. */
  ghost predicate Split(groups: seq<Group>) {
    && NativeIds(Select(groups, Match)) + NativeIds(Select(groups, NativeOnly))
         + NativeIds(Select(groups, IndependentOnly)) + NativeIds(Select(groups, Ambiguous)) == NativeIds(groups)
    && IndependentIds(Select(groups, Match)) + IndependentIds(Select(groups, NativeOnly))
         + IndependentIds(Select(groups, IndependentOnly)) + IndependentIds(Select(groups, Ambiguous))
         == IndependentIds(groups)
  }

  lemma {:induction false} BucketsSplit(groups: seq<Group>)
    ensures Split(groups)
  {
    hide Split;
    if groups == [] {
      NothingSplit();
    } else {
      var n := |groups| - 1;
      BucketsSplit(groups[..n]);
      OneMoreGroup(groups[..n], groups[n]);
      assert groups == groups[..n] + [groups[n]];
    }
  }

  lemma NothingSplit()
    ensures Split([])
  {
    assert forall b :: Select([], b) == [];
    assert NativeIds([]) == IndependentIds([]) == multiset{};
    assert multiset{} + multiset{} + multiset{} + multiset{} == NativeIds([]);
  }

  lemma OneMoreGroup(groups: seq<Group>, g: Group)
    requires Split(groups)
    ensures Split(groups + [g])
  {
    hide Select, BucketOf;
    SelectedIds(groups, g, Match);
    SelectedIds(groups, g, NativeOnly);
    SelectedIds(groups, g, IndependentOnly);
    SelectedIds(groups, g, Ambiguous);
    assert (groups + [g])[..|groups|] == groups;
    FourParts(NativeIds(Select(groups, Match)), NativeIds(Select(groups, NativeOnly)),
              NativeIds(Select(groups, IndependentOnly)), NativeIds(Select(groups, Ambiguous)),
              NativeIds(groups), multiset(g.native));
    FourParts(IndependentIds(Select(groups, Match)), IndependentIds(Select(groups, NativeOnly)),
              IndependentIds(Select(groups, IndependentOnly)), IndependentIds(Select(groups, Ambiguous)),
              IndependentIds(groups), multiset(g.independent));
  }

  lemma KeysCover(left: seq<(Key, int)>, right: seq<(Key, int)>)
    ensures forall i, j :: 0 <= i < j < |Keys(left, right)| ==> TUPLE_LESS(Keys(left, right)[i], Keys(left, right)[j])
    ensures forall i, j :: 0 <= i < j < |Keys(left, right)| ==> Keys(left, right)[i] != Keys(left, right)[j]
    ensures forall k :: k in Keys(left, right) <==> (exists p :: p in left && p.0 == k) || (exists p :: p in right && p.0 == k)
  {
    TuplesAreOrdered();
    DistinctKeeps(KeysOf(left) + KeysOf(right), TUPLE_LESS);
    forall k
      ensures k in KeysOf(left) <==> exists p :: p in left && p.0 == k
      ensures k in KeysOf(right) <==> exists p :: p in right && p.0 == k
    {
      if p :| p in left && p.0 == k {
        var i :| 0 <= i < |left| && left[i] == p;
        assert KeysOf(left)[i] == k;
      }
      if p :| p in right && p.0 == k {
        var i :| 0 <= i < |right| && right[i] == p;
        assert KeysOf(right)[i] == k;
      }
      if k in KeysOf(left) {
        var i :| 0 <= i < |left| && KeysOf(left)[i] == k;
        assert left[i] in left;
      }
      if k in KeysOf(right) {
        var i :| 0 <= i < |right| && KeysOf(right)[i] == k;
        assert right[i] in right;
      }
    }
  }

  /** Every compared row lands in exactly one bucket, as often as it occurs; nothing else does. */
  lemma BucketsConserve(left: seq<(Key, int)>, right: seq<(Key, int)>)
    ensures var groups := Groups(left, right);
      && NativeIds(Select(groups, Match)) + NativeIds(Select(groups, NativeOnly)) + NativeIds(Select(groups, Ambiguous))
           == multiset(Ids(left))
      && IndependentIds(Select(groups, Match)) + IndependentIds(Select(groups, IndependentOnly))
           + IndependentIds(Select(groups, Ambiguous)) == multiset(Ids(right))
  {
    hide Select, NativeIds, IndependentIds, Keys, UnderKeys, Ids, GroupsOf;
    var groups := Groups(left, right);
    assert groups == GroupsOf(left, right, Keys(left, right));
    KeysCover(left, right);
    AllUnderKeys(left, Keys(left, right));
    AllUnderKeys(right, Keys(left, right));
    GroupedIds(left, right, Keys(left, right));
    BucketsSplit(groups);
    OneSided(groups);
    WithoutEmpty(NativeIds(Select(groups, Match)), NativeIds(Select(groups, NativeOnly)), NativeIds(Select(groups, Ambiguous)));
    WithoutEmpty(IndependentIds(Select(groups, Match)), IndependentIds(Select(groups, IndependentOnly)),
                 IndependentIds(Select(groups, Ambiguous)));
  }

  lemma WithoutEmpty(a: multiset<int>, b: multiset<int>, c: multiset<int>)
    ensures a + b + multiset{} + c == a + b + c && a + multiset{} + b + c == a + b + c
  {
  }

  lemma {:induction false} OneSided(groups: seq<Group>)
    ensures NativeIds(Select(groups, IndependentOnly)) == multiset{}
    ensures IndependentIds(Select(groups, NativeOnly)) == multiset{}
  {
    hide Select;
    if groups == [] {
      NothingSelected();
    } else {
      var n := |groups| - 1;
      OneSided(groups[..n]);
      SelectedIds(groups[..n], groups[n], IndependentOnly);
      SelectedIds(groups[..n], groups[n], NativeOnly);
      assert groups == groups[..n] + [groups[n]];
    }
  }

  lemma NothingSelected()
    ensures forall b :: NativeIds(Select([], b)) == IndependentIds(Select([], b)) == multiset{}
  {
  }

  lemma {:induction false} SelectAre(groups: seq<Group>, b: Bucket)
    ensures forall g :: g in Select(groups, b) <==> g in groups && BucketOf(g) == b
  {
    if groups != [] {
      SelectAre(groups[..|groups| - 1], b);
      assert groups == groups[..|groups| - 1] + [groups[|groups| - 1]];
    }
  }

  lemma {:induction false} IdsOfAre(pairs: seq<(Key, int)>, k: Key)
    ensures forall x :: x in IdsOf(pairs, k) <==> (k, x) in pairs
  {
    if pairs != [] {
      IdsOfAre(pairs[..|pairs| - 1], k);
      assert pairs == pairs[..|pairs| - 1] + [pairs[|pairs| - 1]];
    }
  }

  /** A match pairs exactly one native with one independent action of the same key, and no other
      action of either side has that key. */
  lemma MatchesAreOneToOne(left: seq<(Key, int)>, right: seq<(Key, int)>, g: Group)
    requires g in Select(Groups(left, right), Match)
    ensures |g.native| == |g.independent| == 1
    ensures (g.key, g.native[0]) in left && (g.key, g.independent[0]) in right
    ensures |IdsOf(left, g.key)| == |IdsOf(right, g.key)| == 1
  {
    SelectAre(Groups(left, right), Match);
    var i :| 0 <= i < |Groups(left, right)| && Groups(left, right)[i] == g;
    assert g == GroupOf(left, right, g.key);
    OneId(left, g.key);
    OneId(right, g.key);
  }

  lemma OneId(pairs: seq<(Key, int)>, k: Key)
    ensures |Sorted(IdsOf(pairs, k), INT_LESS)| == |IdsOf(pairs, k)|
    ensures |IdsOf(pairs, k)| > 0 ==> (k, Sorted(IdsOf(pairs, k), INT_LESS)[0]) in pairs
  {
    hide Sorted, IdsOf;
    var ids := IdsOf(pairs, k);
    IntsAreOrdered();
    SortedKeeps(ids, INT_LESS);
    assert |multiset(ids)| == |multiset(Sorted(ids, INT_LESS))|;
    IdsOfAre(pairs, k);
    if |ids| > 0 { assert Sorted(ids, INT_LESS)[0] in multiset(ids); }
  }

  // ---------------------------------------------------------------- input order

  lemma {:induction false} IdsOfConcat(a: seq<(Key, int)>, b: seq<(Key, int)>, k: Key)
    ensures IdsOf(a + b, k) == IdsOf(a, k) + IdsOf(b, k)
  {
    if b == [] {
      assert a + b == a;
    } else {
      var n := |b| - 1;
      assert (a + b)[..|a + b| - 1] == a + b[..n];
      IdsOfConcat(a, b[..n], k);
    }
  }

  lemma {:induction false} SameIds(a: seq<(Key, int)>, b: seq<(Key, int)>, k: Key)
    requires multiset(a) == multiset(b)
    ensures multiset(IdsOf(a, k)) == multiset(IdsOf(b, k))
  {
    hide IdsOf;
    if a == [] {
      assert |multiset(b)| == 0;
    } else {
      var n := |a| - 1;
      var x, y := CutLast(a, b);
      SameIds(a[..n], x + y, k);
      IdsOfAppend(a[..n], a[n], k);
      assert a == a[..n] + [a[n]];
      IdsOfAppend(x, a[n], k);
      IdsOfConcat(x + [a[n]], y, k);
      IdsOfConcat(x, y, k);
    }
  }

  /** The groups, and so all four buckets, do not depend on the order of the rows. */
  lemma OrderDoesNotMatter(left: seq<(Key, int)>, right: seq<(Key, int)>, left2: seq<(Key, int)>, right2: seq<(Key, int)>)
    requires multiset(left) == multiset(left2) && multiset(right) == multiset(right2)
    ensures Groups(left, right) == Groups(left2, right2)
  {
    KeysCover(left, right);
    KeysCover(left2, right2);
    assert forall p :: p in left <==> p in multiset(left);
    assert forall p :: p in left2 <==> p in multiset(left2);
    assert forall p :: p in right <==> p in multiset(right);
    assert forall p :: p in right2 <==> p in multiset(right2);
    TuplesAreOrdered();
    StrictlyUnique(Keys(left, right), Keys(left2, right2), TUPLE_LESS);
    IntsAreOrdered();
    forall k
      ensures GroupOf(left, right, k) == GroupOf(left2, right2, k)
    {
      SameIds(left, left2, k);
      SameIds(right, right2, k);
      SortedKeeps(IdsOf(left, k), INT_LESS);
      SortedKeeps(IdsOf(left2, k), INT_LESS);
      SortedKeeps(IdsOf(right, k), INT_LESS);
      SortedKeeps(IdsOf(right2, k), INT_LESS);
      AscendingUnique(Sorted(IdsOf(left, k), INT_LESS), Sorted(IdsOf(left2, k), INT_LESS), INT_LESS);
      AscendingUnique(Sorted(IdsOf(right, k), INT_LESS), Sorted(IdsOf(right2, k), INT_LESS), INT_LESS);
    }
  }

  lemma {:induction false} KeyedConcat(a: seq<Row>, b: seq<Row>)
    ensures Keyed(a + b) == Keyed(a) + Keyed(b)
  {
    if b == [] {
      assert a + b == a;
    } else {
      assert (a + b)[..|a + b| - 1] == a + b[..|b| - 1];
      KeyedConcat(a, b[..|b| - 1]);
    }
  }

  /** Permuting the rows permutes the pairs. */
  lemma {:induction false} KeyedPermutes(a: seq<Row>, b: seq<Row>)
    requires multiset(a) == multiset(b)
    ensures multiset(Keyed(a)) == multiset(Keyed(b))
  {
    hide Keyed, Counts, KeyOf;
    if a == [] {
      assert |multiset(b)| == 0;
    } else {
      var n := |a| - 1;
      var x, y := CutLast(a, b);
      KeyedPermutes(a[..n], x + y);
      assert a == a[..n] + [a[n]];
      KeyedConcat(a[..n], [a[n]]);
      KeyedConcat(x, [a[n]]);
      KeyedConcat(x + [a[n]], y);
      KeyedConcat(x, y);
    }
  }

  lemma {:induction false} NativePermutes(a: seq<Row>, b: seq<Row>)
    requires multiset(a) == multiset(b)
    ensures multiset(Native(a)) == multiset(Native(b))
  {
    if a == [] {
      assert |multiset(b)| == 0;
    } else {
      var n := |a| - 1;
      var x, y := CutLast(a, b);
      NativePermutes(a[..n], x + y);
      assert Native(a) == Native(a[..n]) + [NativeRow(a[n])];
      assert Native(b) == Native(x) + [NativeRow(a[n])] + Native(y);
      assert Native(x + y) == Native(x) + Native(y);
    }
  }

  lemma {:induction false} IndependentPermutes(a: seq<Row>, b: seq<Row>, first: int, last: int)
    requires multiset(a) == multiset(b)
    ensures multiset(Independent(a, first, last)) == multiset(Independent(b, first, last))
  {
    if a == [] {
      assert |multiset(b)| == 0;
    } else {
      var n := |a| - 1;
      var x, y := CutLast(a, b);
      IndependentPermutes(a[..n], x + y, first, last);
      var r := a[n].(disposition := DispositionOf(a[n].date, first, last));
      assert Independent(a, first, last) == Independent(a[..n], first, last) + [r];
      assert Independent(b, first, last) == Independent(x, first, last) + [r] + Independent(y, first, last);
      assert Independent(x + y, first, last) == Independent(x, first, last) + Independent(y, first, last);
    }
  }

  /** Reordering the source rows of either side changes no bucket. */
  lemma BucketsIgnoreOrder(native: seq<Row>, native2: seq<Row>, independent: seq<Row>, independent2: seq<Row>, first: int, last: int)
    requires multiset(native) == multiset(native2) && multiset(independent) == multiset(independent2)
    ensures Groups(Keyed(Native(native)), Keyed(Independent(independent, first, last)))
              == Groups(Keyed(Native(native2)), Keyed(Independent(independent2, first, last)))
  {
    hide Groups, Keyed, Native, Independent;
    NativePermutes(native, native2);
    IndependentPermutes(independent, independent2, first, last);
    KeyedPermutes(Native(native), Native(native2));
    KeyedPermutes(Independent(independent, first, last), Independent(independent2, first, last));
    OrderDoesNotMatter(Keyed(Native(native)), Keyed(Independent(independent, first, last)),
                       Keyed(Native(native2)), Keyed(Independent(independent2, first, last)));
  }

  /** Which rows are compared: on the native side every dated in-span row, on the independent side
      every such row whose status is no conflict. */
  lemma {:induction false} ComparedRows(rows: seq<Row>)
    ensures |Keyed(rows)| <= |rows|
    ensures forall p :: p in Keyed(rows) <==> exists r :: r in rows && Counts(r) && p == (KeyOf(r), r.id)
  {
    hide KeyOf;
    if rows != [] {
      ComparedRows(rows[..|rows| - 1]);
      assert rows == rows[..|rows| - 1] + [rows[|rows| - 1]];
    }
  }

  // ---------------------------------------------------------------- the buckets, on the rows themselves

  /** A dated row inside the span, not under a conflict status. */
  predicate Compared(r: Row) {
    r.date.Some? && r.disposition.InDataset? && r.status.Confirmed?
  }

  /** Two rows tell of the same event: equal type, equal date, equal sets of symbols. */
  predicate Agree(a: Row, b: Row) {
    a.kind == b.kind && a.date == b.date && (forall x :: x in a.symbols ==> x in b.symbols) && (forall x :: x in b.symbols ==> x in a.symbols)
  }

  /** How many of these rows are compared and tell of the same event as this one. */
  function Agreeing(rows: seq<Row>, row: Row): nat {
    if rows == [] then 0
    else
      var r := rows[|rows| - 1];
      Agreeing(rows[..|rows| - 1], row) + if Compared(r) && Agree(r, row) then 1 else 0
  }

  lemma SameKeyIff(a: Row, b: Row)
    requires a.date.Some? && b.date.Some?
    ensures KeyOf(a) == KeyOf(b) <==> Agree(a, b)
    ensures KeyShape(KeyOf(a)) && KeyOf(a)[0] == a.kind && KeyOf(a)[1] == a.date.value
  {
    IntsAreOrdered();
    DistinctKeeps(a.symbols, INT_LESS);
    DistinctKeeps(b.symbols, INT_LESS);
    var x, y := Distinct(a.symbols, INT_LESS), Distinct(b.symbols, INT_LESS);
    hide Distinct;
    if Agree(a, b) {
      forall v
        ensures v in x <==> v in y
      {
        assert (v in x <==> v in a.symbols) && (v in y <==> v in b.symbols);
      }
      StrictlyUnique(x, y, INT_LESS);
    }
    if KeyOf(a) == KeyOf(b) { assert KeyOf(a)[2..] == x && KeyOf(b)[2..] == y; }
  }

  lemma {:induction false} AgreeingIds(rows: seq<Row>, row: Row)
    requires row.date.Some?
    ensures |IdsOf(Keyed(rows), KeyOf(row))| == Agreeing(rows, row)
    ensures Compared(row) && row in rows ==> row.id in IdsOf(Keyed(rows), KeyOf(row))
  {
    hide KeyOf;
    if rows != [] {
      var n := |rows| - 1;
      AgreeingIds(rows[..n], row);
      assert rows == rows[..n] + [rows[n]];
      if Compared(rows[n]) {
        SameKeyIff(rows[n], row);
        IdsOfAppend(Keyed(rows[..n]), (KeyOf(rows[n]), rows[n].id), KeyOf(row));
        if rows[n] == row { assert IdsOf(Keyed(rows), KeyOf(row))[|IdsOf(Keyed(rows[..n]), KeyOf(row))|] == row.id; }
      } else {
        assert Keyed(rows[..n]) + [] == Keyed(rows[..n]);
      }
    }
  }

  /** Where every compared row of either side lands, by how many rows of each side tell of its event:
      one of both is a match, one of a single side is that side's own, anything more is ambiguous. */
  lemma BucketOfRow(native: seq<Row>, independent: seq<Row>, row: Row)
    requires Compared(row) && (row in native || row in independent)
    ensures var n, m := Agreeing(native, row), Agreeing(independent, row);
      var g := GroupOf(Keyed(native), Keyed(independent), KeyOf(row));
      && |g.native| == n && |g.independent| == m
      && g in Select(Groups(Keyed(native), Keyed(independent)),
                     if n > 1 || m > 1 then Ambiguous else if n == 0 then IndependentOnly else if m == 0 then NativeOnly else Match)
      && (row in native ==> row.id in g.native) && (row in independent ==> row.id in g.independent)
  {
    hide KeyOf, Keyed, IdsOf, Sorted, Agreeing, Groups, Select, Counts;
    var left, right, k := Keyed(native), Keyed(independent), KeyOf(row);
    AgreeingIds(native, row);
    AgreeingIds(independent, row);
    SortedIds(left, k);
    SortedIds(right, k);
    var g := GroupOf(left, right, k);
    if row in native { IdIsKey(left, k, row.id); } else { IdIsKey(right, k, row.id); }
    GroupListed(left, right, k);
    SelectAre(Groups(left, right), BucketOf(g));
  }

  lemma IdIsKey(pairs: seq<(Key, int)>, k: Key, id: int)
    requires id in IdsOf(pairs, k)
    ensures |IdsOf(pairs, k)| > 0 && exists p :: p in pairs && p.0 == k
  {
    IdsOfAre(pairs, k);
    assert (k, id) in pairs;
  }

  lemma GroupListed(left: seq<(Key, int)>, right: seq<(Key, int)>, k: Key)
    requires (exists p :: p in left && p.0 == k) || (exists p :: p in right && p.0 == k)
    ensures GroupOf(left, right, k) in Groups(left, right)
  {
    hide GroupOf;
    KeysCover(left, right);
    assert k in Keys(left, right);
    var i :| 0 <= i < |Keys(left, right)| && Keys(left, right)[i] == k;
    assert Groups(left, right)[i] == GroupOf(left, right, k);
  }

  lemma SortedIds(pairs: seq<(Key, int)>, k: Key)
    ensures |Sorted(IdsOf(pairs, k), INT_LESS)| == |IdsOf(pairs, k)|
    ensures forall x :: x in Sorted(IdsOf(pairs, k), INT_LESS) <==> x in IdsOf(pairs, k)
  {
    hide Sorted, IdsOf;
    var ids := IdsOf(pairs, k);
    IntsAreOrdered();
    SortedKeeps(ids, INT_LESS);
    assert |multiset(ids)| == |multiset(Sorted(ids, INT_LESS))|;
    assert forall x :: x in ids <==> x in multiset(ids);
    assert forall x :: x in Sorted(ids, INT_LESS) <==> x in multiset(Sorted(ids, INT_LESS));
  }

  /** A match pairs a native with an independent row of the same type, date and symbols; no other
      compared row of either side tells of that event. */
  lemma MatchesAgree(native: seq<Row>, independent: seq<Row>, g: Group)
    requires g in Select(Groups(Keyed(native), Keyed(independent)), Match)
    ensures exists n, r :: n in native && r in independent && Compared(n) && Compared(r) && Agree(n, r)
              && g.native == [n.id] && g.independent == [r.id] && Agreeing(native, n) == Agreeing(independent, n) == 1
  {
    hide KeyOf, Keyed, IdsOf, Sorted, Agreeing, Select, Groups;
    MatchesAreOneToOne(Keyed(native), Keyed(independent), g);
    ComparedRows(native);
    ComparedRows(independent);
    var n :| n in native && Counts(n) && (g.key, g.native[0]) == (KeyOf(n), n.id);
    var r :| r in independent && Counts(r) && (g.key, g.independent[0]) == (KeyOf(r), r.id);
    SameKeyIff(n, r);
    AgreeingIds(native, n);
    AgreeingIds(independent, n);
  }

  /** Of the independent rows exactly those dated within the span can be compared, each with its own
      type, date, symbols and status; native rows carry no status. */
  lemma InSpanIff(native: seq<Row>, independent: seq<Row>, first: int, last: int, i: nat)
    ensures |Native(native)| == |native| && |Independent(independent, first, last)| == |independent|
    ensures i < |independent| ==>
              var r, s := Independent(independent, first, last)[i], independent[i];
              && (Compared(r) <==> s.date.Some? && first <= s.date.value <= last && s.status == Confirmed)
              && Agree(r, s) && r.id == s.id
    ensures i < |native| ==>
              var r, s := Native(native)[i], native[i];
              && (Compared(r) <==> s.date.Some? && s.disposition == InDataset) && Agree(r, s) && r.id == s.id
  {
  }

  /** What is listed as an unknown date or under a conflict status. */
  lemma {:induction false} ListedRows(rows: seq<Row>, native: bool)
    ensures forall x :: x in Unknown(native, rows) <==> exists r :: r in rows && r.date == None && x == (native, r.id)
    ensures forall c :: c in StatusConflicts(rows) <==> exists r :: r in rows && r.status != Confirmed && c == StatusConflict(r.id, r.status)
  {
    if rows != [] {
      ListedRows(rows[..|rows| - 1], native);
      assert rows == rows[..|rows| - 1] + [rows[|rows| - 1]];
    }
  }

  // ---------------------------------------------------------------- possible conflicts

  predicate Overlap(a: seq<int>, b: seq<int>) {
    exists x :: x in a && x in b
  }

  predicate KeyShape(k: Key) {
    |k| >= 2
  }

  /** Whether two one-sided groups are retained as a possible disagreement. */
  predicate Disagree(l: Group, r: Group)
    requires KeyShape(l.key) && KeyShape(r.key)
  {
    var sameType, sameDate := l.key[0] == r.key[0], l.key[1] == r.key[1];
    if Overlap(l.key[2..], r.key[2..]) then sameType || sameDate else sameType && sameDate
  }

  function ConflictOf(l: Group, r: Group): Conflict
    requires KeyShape(l.key) && KeyShape(r.key)
  {
    PossibleConflict(l.native, r.independent, l.key[0] == r.key[0] && l.key[1] == r.key[1] && l.key[2..] != r.key[2..])
  }

  function PairsWith(l: Group, rights: seq<Group>): seq<Conflict>
    requires KeyShape(l.key) && forall r :: r in rights ==> KeyShape(r.key)
  {
    if rights == [] then []
    else
      var r := rights[|rights| - 1];
      PairsWith(l, rights[..|rights| - 1]) + if Disagree(l, r) then [ConflictOf(l, r)] else []
  }

  function Pairs(lefts: seq<Group>, rights: seq<Group>): seq<Conflict>
    requires (forall l :: l in lefts ==> KeyShape(l.key)) && (forall r :: r in rights ==> KeyShape(r.key))
  {
    if lefts == [] then [] else Pairs(lefts[..|lefts| - 1], rights) + PairsWith(lefts[|lefts| - 1], rights)
  }

  function StatusConflicts(rows: seq<Row>): seq<Conflict> {
    if rows == [] then []
    else
      var r := rows[|rows| - 1];
      StatusConflicts(rows[..|rows| - 1]) + if r.status.Confirmed? then [] else [StatusConflict(r.id, r.status)]
  }

  function Unknown(native: bool, rows: seq<Row>): seq<(bool, int)> {
    if rows == [] then []
    else
      var r := rows[|rows| - 1];
      Unknown(native, rows[..|rows| - 1]) + if r.date.None? then [(native, r.id)] else []
  }

  lemma {:induction false} KeyedShape(rows: seq<Row>)
    ensures forall p :: p in Keyed(rows) ==> KeyShape(p.0)
  {
    if rows != [] { KeyedShape(rows[..|rows| - 1]); }
  }

  lemma GroupKeys(left: seq<(Key, int)>, right: seq<(Key, int)>, b: Bucket)
    requires (forall p :: p in left ==> KeyShape(p.0)) && (forall p :: p in right ==> KeyShape(p.0))
    ensures forall g :: g in Select(Groups(left, right), b) ==> KeyShape(g.key)
  {
    KeysCover(left, right);
    SelectAre(Groups(left, right), b);
    forall g | g in Groups(left, right)
      ensures KeyShape(g.key)
    {
      var i :| 0 <= i < |Groups(left, right)| && Groups(left, right)[i] == g;
      assert Keys(left, right)[i] in Keys(left, right);
    }
  }

  /** Two keys may tell of one event: they share the type or the date, and both if they share no symbol. */
  predicate Close(a: Key, b: Key)
    requires KeyShape(a) && KeyShape(b)
  {
    && (a[0] == b[0] || a[1] == b[1])
    && ((forall x :: x in a[2..] ==> x !in b[2..]) ==> a[0] == b[0] && a[1] == b[1])
  }

  /** Exactly the close pairs of one-sided groups are retained as possible conflicts. */
  lemma {:induction false} PairsAre(lefts: seq<Group>, rights: seq<Group>)
    requires (forall l :: l in lefts ==> KeyShape(l.key)) && (forall r :: r in rights ==> KeyShape(r.key))
    ensures forall l, r :: l in lefts && r in rights && Close(l.key, r.key) ==> ConflictOf(l, r) in Pairs(lefts, rights)
    ensures forall c :: c in Pairs(lefts, rights) ==> exists l, r :: l in lefts && r in rights && Close(l.key, r.key) && c == ConflictOf(l, r)
  {
    hide PairsWith;
    if lefts != [] {
      var n := |lefts| - 1;
      PairsAre(lefts[..n], rights);
      PairsWithAre(lefts[n], rights);
      assert lefts == lefts[..n] + [lefts[n]];
    }
  }

  lemma {:induction false} PairsWithAre(l: Group, rights: seq<Group>)
    requires KeyShape(l.key) && forall r :: r in rights ==> KeyShape(r.key)
    ensures forall r :: r in rights && Close(l.key, r.key) ==> ConflictOf(l, r) in PairsWith(l, rights)
    ensures forall c :: c in PairsWith(l, rights) ==> exists r :: r in rights && Close(l.key, r.key) && c == ConflictOf(l, r)
  {
    if rights != [] {
      var n := |rights| - 1;
      PairsWithAre(l, rights[..n]);
      assert rights == rights[..n] + [rights[n]];
      assert Disagree(l, rights[n]) <==> Close(l.key, rights[n].key);
    }
  }

  /** Between one-sided groups, a possible conflict is a symbol conflict exactly when type and
      date agree: equal symbols too would have made the two groups one match. */
  lemma SymbolConflictIff(left: seq<(Key, int)>, right: seq<(Key, int)>, l: Group, r: Group)
    requires (forall p :: p in left ==> KeyShape(p.0)) && (forall p :: p in right ==> KeyShape(p.0))
    requires l in Select(Groups(left, right), NativeOnly) && r in Select(Groups(left, right), IndependentOnly)
    ensures KeyShape(l.key) && KeyShape(r.key)
    ensures ConflictOf(l, r).symbols <==> l.key[0] == r.key[0] && l.key[1] == r.key[1]
  {
    GroupKeys(left, right, NativeOnly);
    GroupKeys(left, right, IndependentOnly);
    assert l.key != r.key by { OneSidedKeys(left, right, l, r); }
    if l.key[0] == r.key[0] && l.key[1] == r.key[1] && l.key[2..] == r.key[2..] { SameKey(l.key, r.key); }
  }

  lemma OneSidedKeys(left: seq<(Key, int)>, right: seq<(Key, int)>, l: Group, r: Group)
    requires l in Select(Groups(left, right), NativeOnly) && r in Select(Groups(left, right), IndependentOnly)
    ensures l.key != r.key
  {
    SelectAre(Groups(left, right), NativeOnly);
    SelectAre(Groups(left, right), IndependentOnly);
    assert l == GroupOf(left, right, l.key) && r == GroupOf(left, right, r.key);
  }

  lemma SameKey(a: Key, b: Key)
    requires KeyShape(a) && KeyShape(b) && a[0] == b[0] && a[1] == b[1] && a[2..] == b[2..]
    ensures a == b
  {
    assert a == [a[0], a[1]] + a[2..] && b == [b[0], b[1]] + b[2..];
  }

  // ---------------------------------------------------------------- the coverage matrix

  predicate Observed(r: Row, symbol: int, kind: int) {
    symbol in r.symbols && r.kind == kind && r.disposition.InDataset?
  }

  function CountOf(rows: seq<Row>, symbol: int, kind: int): nat {
    if rows == [] then 0
    else CountOf(rows[..|rows| - 1], symbol, kind) + if Observed(rows[|rows| - 1], symbol, kind) then 1 else 0
  }

  function MatrixRow(rows: seq<Row>, symbol: int, kinds: seq<int>): seq<nat> {
    seq(|kinds|, i requires 0 <= i < |kinds| => CountOf(rows, symbol, kinds[i]))
  }

  function Matrix(rows: seq<Row>, universe: seq<int>, kinds: seq<int>): seq<nat> {
    if universe == [] then []
    else Matrix(rows, universe[..|universe| - 1], kinds) + MatrixRow(rows, universe[|universe| - 1], kinds)
  }

  /** The places of the matrix, symbol by symbol. */
  function Places(universe: seq<int>, kinds: seq<int>): seq<(int, int)> {
    if universe == [] then []
    else
      var n := |universe| - 1;
      Places(universe[..n], kinds) + seq(|kinds|, i requires 0 <= i < |kinds| => (universe[n], kinds[i]))
  }

  /** The intervals the sources declare for one symbol and type, in source order. */
  function Declared(inventories: seq<Inventory>, symbol: int, kind: int): seq<Interval> {
    if inventories == [] then []
    else
      var n := |inventories| - 1;
      var s := inventories[n];
      Declared(inventories[..n], symbol, kind)
        + if symbol in s.symbols && kind in s.kinds then [Interval(s.id, s.first, s.last, s.completeness)] else []
  }

  /** What one place reports: the number of observed rows, exactly their dates, each once and in
      order, the declared intervals, and the days of the span no declared interval covers. */
  ghost predicate CellIs(c: Cell, rows: seq<Row>, inventories: seq<Inventory>, first: int, last: int, symbol: int, kind: int) {
    && c.symbol == symbol && c.kind == kind && c.count == CountOf(rows, symbol, kind)
    && Strictly(c.dates, INT_LESS) && |c.dates| <= c.count
    && (forall d :: d in c.dates <==> exists r :: r in rows && Observed(r, symbol, kind) && r.date == Some(d))
    && c.intervals == Declared(inventories, symbol, kind) && GapsOf(c.gaps, c.intervals, first, last)
  }

  ghost predicate MatrixIs(matrix: seq<Cell>, rows: seq<Row>, inventories: seq<Inventory>, first: int, last: int,
                           places: seq<(int, int)>) {
    && |matrix| == |places|
    && forall i :: 0 <= i < |matrix| ==> CellIs(matrix[i], rows, inventories, first, last, places[i].0, places[i].1)
  }

  function Tallies(matrix: seq<Cell>): seq<nat> {
    seq(|matrix|, i requires 0 <= i < |matrix| => matrix[i].count)
  }

  lemma {:induction false} CountsOfMatrix(matrix: seq<Cell>, rows: seq<Row>, inventories: seq<Inventory>, first: int, last: int,
                                          universe: seq<int>, kinds: seq<int>)
    requires MatrixIs(matrix, rows, inventories, first, last, Places(universe, kinds))
    ensures Tallies(matrix) == Matrix(rows, universe, kinds)
    decreases |universe|
  {
    hide CountOf, Declared, GapsOf;
    if universe != [] {
      var n := |universe| - 1;
      var cut := |Places(universe[..n], kinds)|;
      var before := matrix[..cut];
      assert forall i :: 0 <= i < cut ==> Places(universe, kinds)[i] == Places(universe[..n], kinds)[i];
      CountsOfMatrix(before, rows, inventories, first, last, universe[..n], kinds);
      forall i | cut <= i < |matrix|
        ensures matrix[i].count == MatrixRow(rows, universe[n], kinds)[i - cut]
      {
        assert Places(universe, kinds)[i] == (universe[n], kinds[i - cut]);
      }
      assert Tallies(matrix) == Tallies(before) + MatrixRow(rows, universe[n], kinds);
    }
  }

  lemma {:induction false} FewIntervals(inventories: seq<Inventory>, symbol: int, kind: int)
    requires forall s :: s in inventories ==> s.first <= s.last
    ensures |Declared(inventories, symbol, kind)| <= |inventories|
    ensures forall i :: i in Declared(inventories, symbol, kind) ==> i.first <= i.last
  {
    if inventories != [] {
      assert forall s :: s in inventories[..|inventories| - 1] ==> s in inventories;
      FewIntervals(inventories[..|inventories| - 1], symbol, kind);
    }
  }

  /** A report of at most 16 sources, as a request allows, is within the 32 gaps a report may list. */
  lemma GapsAreBounded(c: Cell, rows: seq<Row>, inventories: seq<Inventory>, first: int, last: int)
    requires CellIs(c, rows, inventories, first, last, c.symbol, c.kind)
    requires |inventories| <= MAX_INVENTORIES && forall s :: s in inventories ==> s.first <= s.last
    ensures |c.gaps| <= MAX_GAPS
  {
    FewIntervals(inventories, c.symbol, c.kind);
  }

  // ---------------------------------------------------------------- the sources

  function AllRows(inventories: seq<Inventory>): seq<Row> {
    if inventories == [] then [] else AllRows(inventories[..|inventories| - 1]) + inventories[|inventories| - 1].rows
  }

  predicate AllIn(some: seq<int>, universe: seq<int>) {
    forall x :: x in some ==> x in universe
  }

  /** Whether the k-th source makes `reconcile_effective_dates` refuse the whole request. */
  predicate Refused(inventories: seq<Inventory>, k: nat, universe: seq<int>, original: set<int>)
    requires k < |inventories|
  {
    var s := inventories[k];
    || (exists i :: 0 <= i < k && (inventories[i].id == s.id || inventories[i].body == s.body))
    || s.body in original || !AllIn(s.symbols, universe)
    || (exists r :: r in s.rows && !Overlap(r.symbols, universe))
    || |AllRows(inventories[..k + 1])| > MAX_INDEPENDENT
  }

  /** What is recorded of one source: how many rows it has, and exactly the symbols they affect. */
  ghost predicate SourceIs(row: SourceRow, s: Inventory) {
    && row.id == s.id && row.observed == |s.rows| && Strictly(row.symbols, INT_LESS)
    && forall x :: x in row.symbols <==> exists r :: r in s.rows && x in r.symbols
  }

  function Sum(s: seq<nat>): nat {
    if s == [] then 0 else Sum(s[..|s| - 1]) + s[|s| - 1]
  }

  /** How many places of the universe a row touches. */
  function Touches(r: Row, universe: seq<int>): nat {
    if universe == [] then 0
    else Touches(r, universe[..|universe| - 1]) + if universe[|universe| - 1] in r.symbols then 1 else 0
  }

  /** The (in-span row, universe symbol) incidences over the supported types. */
  function Incidences(rows: seq<Row>, universe: seq<int>, kinds: seq<int>): nat {
    if rows == [] then 0
    else
      var r := rows[|rows| - 1];
      Incidences(rows[..|rows| - 1], universe, kinds)
        + if r.disposition.InDataset? && r.kind in kinds then Touches(r, universe) else 0
  }

  lemma {:induction false} SumConcat(a: seq<nat>, b: seq<nat>)
    ensures Sum(a + b) == Sum(a) + Sum(b)
  {
    if b == [] {
      assert a + b == a;
    } else {
      assert (a + b)[..|a + b| - 1] == a + b[..|b| - 1];
      SumConcat(a, b[..|b| - 1]);
    }
  }

  /** One more row adds one to the cell of its own type, if it touches the symbol. */
  lemma {:induction false} OneMoreInRow(rows: seq<Row>, r: Row, symbol: int, kinds: seq<int>)
    requires forall i, j :: 0 <= i < j < |kinds| ==> kinds[i] != kinds[j]
    ensures Sum(MatrixRow(rows + [r], symbol, kinds)) == Sum(MatrixRow(rows, symbol, kinds))
              + if symbol in r.symbols && r.kind in kinds && r.disposition.InDataset? then 1 else 0
  {
    if kinds != [] {
      var n := |kinds| - 1;
      OneMoreInRow(rows, r, symbol, kinds[..n]);
      assert (rows + [r])[..|rows|] == rows;
      assert kinds == kinds[..n] + [kinds[n]];
      var a, b := MatrixRow(rows, symbol, kinds), MatrixRow(rows + [r], symbol, kinds);
      assert a[..n] == MatrixRow(rows, symbol, kinds[..n]);
      assert b[..n] == MatrixRow(rows + [r], symbol, kinds[..n]);
    }
  }

  lemma {:induction false} OneMoreInMatrix(rows: seq<Row>, r: Row, universe: seq<int>, kinds: seq<int>)
    requires forall i, j :: 0 <= i < j < |kinds| ==> kinds[i] != kinds[j]
    ensures Sum(Matrix(rows + [r], universe, kinds)) == Sum(Matrix(rows, universe, kinds))
              + if r.disposition.InDataset? && r.kind in kinds then Touches(r, universe) else 0
  {
    if universe != [] {
      var n := |universe| - 1;
      OneMoreInMatrix(rows, r, universe[..n], kinds);
      OneMoreInRow(rows, r, universe[n], kinds);
      SumConcat(Matrix(rows, universe[..n], kinds), MatrixRow(rows, universe[n], kinds));
      SumConcat(Matrix(rows + [r], universe[..n], kinds), MatrixRow(rows + [r], universe[n], kinds));
    }
  }

  lemma {:induction false} EmptyMatrix(universe: seq<int>, kinds: seq<int>)
    ensures Sum(Matrix([], universe, kinds)) == 0
  {
    if universe != [] {
      var n := |universe| - 1;
      EmptyMatrix(universe[..n], kinds);
      SumConcat(Matrix([], universe[..n], kinds), MatrixRow([], universe[n], kinds));
      ZeroRow(universe[n], kinds);
    }
  }

  lemma {:induction false} ZeroRow(symbol: int, kinds: seq<int>)
    ensures Sum(MatrixRow([], symbol, kinds)) == 0
  {
    if kinds != [] {
      var n := |kinds| - 1;
      ZeroRow(symbol, kinds[..n]);
      assert MatrixRow([], symbol, kinds)[..n] == MatrixRow([], symbol, kinds[..n]);
    }
  }

  /** The counts of the whole matrix add up to the incidences. */
  lemma {:induction false} MatrixCountsIncidences(rows: seq<Row>, universe: seq<int>, kinds: seq<int>)
    requires forall i, j :: 0 <= i < j < |kinds| ==> kinds[i] != kinds[j]
    ensures Sum(Matrix(rows, universe, kinds)) == Incidences(rows, universe, kinds)
  {
    if rows == [] {
      EmptyMatrix(universe, kinds);
    } else {
      var n := |rows| - 1;
      MatrixCountsIncidences(rows[..n], universe, kinds);
      OneMoreInMatrix(rows[..n], rows[n], universe, kinds);
      assert rows == rows[..n] + [rows[n]];
    }
  }

  // ---------------------------------------------------------------- the reconciliation

  /** Appends one id under its key. */
  function Under(byKey: map<Key, seq<int>>, k: Key): seq<int> {
    if k in byKey then byKey[k] else []
  }

  lemma KeyedNext(rows: seq<Row>, i: nat)
    requires i < |rows|
    ensures Keyed(rows[..i + 1]) == Keyed(rows[..i]) + if Counts(rows[i]) then [(KeyOf(rows[i]), rows[i].id)] else []
  {
    assert rows[..i + 1][..i] == rows[..i];
  }

  /** The defaultdict of one side: every key of its pairs, with their ids in order. */
  ghost predicate SideOf(byKey: map<Key, seq<int>>, pairs: seq<(Key, int)>) {
    && (forall k :: Under(byKey, k) == IdsOf(pairs, k))
    && (forall k :: k in byKey <==> k in KeysOf(pairs))
  }

  lemma SideStep(byKey: map<Key, seq<int>>, pairs: seq<(Key, int)>, p: (Key, int))
    requires SideOf(byKey, pairs)
    ensures SideOf(byKey[p.0 := Under(byKey, p.0) + [p.1]], pairs + [p])
  {
    hide IdsOf;
    var after := byKey[p.0 := Under(byKey, p.0) + [p.1]];
    forall k
      ensures Under(after, k) == IdsOf(pairs + [p], k)
    {
      IdsOfAppend(pairs, p, k);
    }
    assert KeysOf(pairs + [p]) == KeysOf(pairs) + [p.0];
  }

  method GroupSide(rows: seq<Row>) returns (byKey: map<Key, seq<int>>)
    ensures SideOf(byKey, Keyed(rows))
  {
    byKey := map[];
    assert Keyed(rows[..0]) == [];
    hide Keyed, SideOf, Counts, KeyOf;
    assert SideOf(byKey, []) by { NoIds(); }
    for i := 0 to |rows|
      invariant SideOf(byKey, Keyed(rows[..i]))
    {
      var r := rows[i];
      KeyedNext(rows, i);
      if Counts(r) {
        var key := KeyOf(r);
        SideStep(byKey, Keyed(rows[..i]), (key, r.id));
        byKey := byKey[key := Under(byKey, key) + [r.id]];
      } else {
        assert Keyed(rows[..i]) + [] == Keyed(rows[..i]);
      }
    }
    assert rows[..|rows|] == rows;
  }

  lemma NoIds()
    ensures SideOf(map[], [])
  {
  }

  /** `sorted(set(a) | set(b))`. */
  method SortKeys(a: set<Key>, b: set<Key>) returns (keys: seq<Key>)
    ensures Strictly(keys, TUPLE_LESS) && forall k :: k in keys <==> k in a || k in b
  {
    TuplesAreOrdered();
    keys := [];
    var todo := a + b;
    while todo != {}
      invariant todo <= a + b && Strictly(keys, TUPLE_LESS)
      invariant forall k :: k in keys <==> (k in a || k in b) && k !in todo
      decreases |todo|
    {
      var k :| k in todo;
      InsertStrictly(keys, k, TUPLE_LESS);
      keys := Insert(keys, k, TUPLE_LESS);
      todo := todo - {k};
    }
  }

  /** The four buckets of `reconcile_effective_dates`. */
  method Bucketing(native: seq<Row>, independent: seq<Row>)
      returns (matches: seq<Group>, nativeOnly: seq<Group>, independentOnly: seq<Group>, ambiguous: seq<Group>)
    ensures var groups := Groups(Keyed(native), Keyed(independent));
      && matches == Select(groups, Match) && nativeOnly == Select(groups, NativeOnly)
      && independentOnly == Select(groups, IndependentOnly) && ambiguous == Select(groups, Ambiguous)
  {
    hide Sorted, IdsOf, Distinct, Keyed, Strictly;
    var nativeByKey := GroupSide(native);
    var independentByKey := GroupSide(independent);
    var keys := SortKeys(nativeByKey.Keys, independentByKey.Keys);
    ghost var left, right := Keyed(native), Keyed(independent);
    assert keys == Keys(left, right) by { TheKeys(left, right, keys); }
    matches, nativeOnly, independentOnly, ambiguous := [], [], [], [];
    for i := 0 to |keys|
      invariant matches == Select(GroupsOf(left, right, keys[..i]), Match)
      invariant nativeOnly == Select(GroupsOf(left, right, keys[..i]), NativeOnly)
      invariant independentOnly == Select(GroupsOf(left, right, keys[..i]), IndependentOnly)
      invariant ambiguous == Select(GroupsOf(left, right, keys[..i]), Ambiguous)
    {
      var l := Sorted(Under(nativeByKey, keys[i]), INT_LESS);
      var r := Sorted(Under(independentByKey, keys[i]), INT_LESS);
      var row := Group(keys[i], l, r);
      assert row == GroupOf(left, right, keys[i]);
      NextGroup(left, right, keys, i);
      if |l| > 1 || |r| > 1 {
        ambiguous := ambiguous + [row];
      } else if l != [] && r != [] {
        matches := matches + [row];
      } else if l != [] {
        nativeOnly := nativeOnly + [row];
      } else {
        independentOnly := independentOnly + [row];
      }
    }
    assert keys[..|keys|] == keys;
  }

  lemma TheKeys(left: seq<(Key, int)>, right: seq<(Key, int)>, keys: seq<Key>)
    requires Strictly(keys, TUPLE_LESS) && forall k :: k in keys <==> k in KeysOf(left) || k in KeysOf(right)
    ensures keys == Keys(left, right)
  {
    TuplesAreOrdered();
    DistinctKeeps(KeysOf(left) + KeysOf(right), TUPLE_LESS);
    StrictlyUnique(keys, Keys(left, right), TUPLE_LESS);
  }

  lemma NextGroup(left: seq<(Key, int)>, right: seq<(Key, int)>, keys: seq<Key>, i: nat)
    requires i < |keys|
    ensures var g := GroupOf(left, right, keys[i]);
      forall b :: Select(GroupsOf(left, right, keys[..i + 1]), b)
                    == Select(GroupsOf(left, right, keys[..i]), b) + if BucketOf(g) == b then [g] else []
  {
    assert GroupsOf(left, right, keys[..i + 1])[..i] == GroupsOf(left, right, keys[..i]);
  }

  /** The status conflicts and unknown dates of both sides, and the matrix. */
  method Listing(native: seq<Row>, independent: seq<Row>)
      returns (unknown: seq<(bool, int)>, conflicts: seq<Conflict>)
    ensures unknown == Unknown(true, native) + Unknown(false, independent)
    ensures conflicts == StatusConflicts(independent)
  {
    unknown, conflicts := [], [];
    for i := 0 to |native|
      invariant unknown == Unknown(true, native[..i])
    {
      assert native[..i + 1][..i] == native[..i];
      if native[i].date.None? { unknown := unknown + [(true, native[i].id)]; }
    }
    assert native[..|native|] == native;
    for i := 0 to |independent|
      invariant unknown == Unknown(true, native) + Unknown(false, independent[..i])
      invariant conflicts == StatusConflicts(independent[..i])
    {
      assert independent[..i + 1][..i] == independent[..i];
      if independent[i].date.None? { unknown := unknown + [(false, independent[i].id)]; }
      if !independent[i].status.Confirmed? { conflicts := conflicts + [StatusConflict(independent[i].id, independent[i].status)]; }
    }
    assert independent[..|independent|] == independent;
  }

  /** The inner loop over one left group. */
  method AddPairsWith(l: Group, rights: seq<Group>, start: seq<Conflict>) returns (r: Option<seq<Conflict>>)
    requires KeyShape(l.key) && forall r :: r in rights ==> KeyShape(r.key)
    ensures r.None? <==> PairsWith(l, rights) != [] && |start| + |PairsWith(l, rights)| > MAX_CONFLICTS
    ensures r.Some? ==> r.value == start + PairsWith(l, rights)
  {
    var conflicts := start;
    for j := 0 to |rights|
      invariant conflicts == start + PairsWith(l, rights[..j])
      invariant PairsWith(l, rights[..j]) == [] || |conflicts| <= MAX_CONFLICTS
    {
      assert rights[..j + 1][..j] == rights[..j];
      if Disagree(l, rights[j]) {
        conflicts := conflicts + [ConflictOf(l, rights[j])];
        if |conflicts| > MAX_CONFLICTS {
          PairsWithGrow(l, rights, j + 1);
          return None;
        }
      }
    }
    assert rights[..|rights|] == rights;
    return Some(conflicts);
  }

  /** The pairwise loop: None once the conflicts exceed their bound. */
  method AddPairs(lefts: seq<Group>, rights: seq<Group>, start: seq<Conflict>) returns (r: Option<seq<Conflict>>)
    requires (forall l :: l in lefts ==> KeyShape(l.key)) && (forall r :: r in rights ==> KeyShape(r.key))
    ensures r.None? <==> Pairs(lefts, rights) != [] && |start| + |Pairs(lefts, rights)| > MAX_CONFLICTS
    ensures r.Some? ==> r.value == start + Pairs(lefts, rights)
  {
    hide PairsWith;
    var conflicts := start;
    for i := 0 to |lefts|
      invariant conflicts == start + Pairs(lefts[..i], rights)
      invariant Pairs(lefts[..i], rights) == [] || |conflicts| <= MAX_CONFLICTS
    {
      assert lefts[..i + 1][..i] == lefts[..i];
      PairsGrow(lefts, rights, i + 1);
      var next := AddPairsWith(lefts[i], rights, conflicts);
      if next.None? {
        return None;
      }
      conflicts := next.value;
    }
    assert lefts[..|lefts|] == lefts;
    return Some(conflicts);
  }

  lemma {:induction false} PairsGrow(lefts: seq<Group>, rights: seq<Group>, i: nat)
    requires (forall l :: l in lefts ==> KeyShape(l.key)) && (forall r :: r in rights ==> KeyShape(r.key)) && i <= |lefts|
    ensures |Pairs(lefts[..i], rights)| <= |Pairs(lefts, rights)|
    decreases |lefts| - i
  {
    if i < |lefts| {
      assert lefts[..i + 1][..i] == lefts[..i];
      PairsGrow(lefts, rights, i + 1);
    } else {
      assert lefts[..i] == lefts;
    }
  }

  lemma {:induction false} PairsWithGrow(l: Group, rights: seq<Group>, j: nat)
    requires KeyShape(l.key) && (forall r :: r in rights ==> KeyShape(r.key)) && j <= |rights|
    ensures |PairsWith(l, rights[..j])| <= |PairsWith(l, rights)|
    decreases |rights| - j
  {
    if j < |rights| {
      assert rights[..j + 1][..j] == rights[..j];
      PairsWithGrow(l, rights, j + 1);
    } else {
      assert rights[..j] == rights;
    }
  }

  /** One place of the coverage matrix. */
  method CoverCell(rows: seq<Row>, inventories: seq<Inventory>, first: int, last: int, symbol: int, kind: int) returns (c: Cell)
    requires first <= last && forall s :: s in inventories ==> s.first <= s.last
    requires forall r :: r in rows && r.disposition.InDataset? ==> r.date.Some?
    ensures CellIs(c, rows, inventories, first, last, symbol, kind)
  {
    hide GapsOf, Insert;
    var count := 0;
    var dates: seq<int> := [];
    IntsAreOrdered();
    for i := 0 to |rows|
      invariant count == CountOf(rows[..i], symbol, kind)
      invariant Strictly(dates, INT_LESS) && |dates| <= count
      invariant forall d :: d in dates <==> exists r :: r in rows[..i] && Observed(r, symbol, kind) && r.date == Some(d)
    {
      assert rows[..i + 1][..i] == rows[..i] && rows[..i + 1] == rows[..i] + [rows[i]];
      if Observed(rows[i], symbol, kind) {
        count := count + 1;
        var day := rows[i].date.value;
        if day !in dates {
          InsertStrictly(dates, day, INT_LESS);
          InsertLength(dates, day, INT_LESS);
          dates := Insert(dates, day, INT_LESS);
        }
      }
    }
    assert rows[..|rows|] == rows;
    var intervals: seq<Interval> := [];
    for i := 0 to |inventories|
      invariant intervals == Declared(inventories[..i], symbol, kind)
    {
      assert inventories[..i + 1][..i] == inventories[..i];
      var s := inventories[i];
      if symbol in s.symbols && kind in s.kinds {
        intervals := intervals + [Interval(s.id, s.first, s.last, s.completeness)];
      }
    }
    assert inventories[..|inventories|] == inventories;
    FewIntervals(inventories, symbol, kind);
    var gaps := ScopeGaps(intervals, first, last);
    c := Cell(symbol, kind, count, dates, intervals, gaps);
  }

  /** The coverage matrix. */
  method Coverage(rows: seq<Row>, inventories: seq<Inventory>, first: int, last: int, universe: seq<int>, kinds: seq<int>)
      returns (matrix: seq<Cell>)
    requires first <= last && forall s :: s in inventories ==> s.first <= s.last
    requires forall r :: r in rows && r.disposition.InDataset? ==> r.date.Some?
    ensures MatrixIs(matrix, rows, inventories, first, last, Places(universe, kinds))
    ensures Tallies(matrix) == Matrix(rows, universe, kinds)
  {
    hide CellIs;
    matrix := [];
    for s := 0 to |universe|
      invariant MatrixIs(matrix, rows, inventories, first, last, Places(universe[..s], kinds))
    {
      assert universe[..s + 1][..s] == universe[..s];
      var line: seq<Cell> := [];
      for t := 0 to |kinds|
        invariant |line| == t && forall i :: 0 <= i < t ==> CellIs(line[i], rows, inventories, first, last, universe[s], kinds[i])
      {
        var c := CoverCell(rows, inventories, first, last, universe[s], kinds[t]);
        line := line + [c];
      }
      MatrixGrows(matrix, line, rows, inventories, first, last, universe, kinds, s);
      matrix := matrix + line;
    }
    assert universe[..|universe|] == universe;
    CountsOfMatrix(matrix, rows, inventories, first, last, universe, kinds);
  }

  lemma MatrixGrows(matrix: seq<Cell>, line: seq<Cell>, rows: seq<Row>, inventories: seq<Inventory>, first: int, last: int,
                    universe: seq<int>, kinds: seq<int>, s: nat)
    requires s < |universe| && MatrixIs(matrix, rows, inventories, first, last, Places(universe[..s], kinds))
    requires |line| == |kinds|
    requires forall i :: 0 <= i < |line| ==> CellIs(line[i], rows, inventories, first, last, universe[s], kinds[i])
    ensures MatrixIs(matrix + line, rows, inventories, first, last, Places(universe[..s + 1], kinds))
  {
    hide CellIs;
    assert universe[..s + 1][..s] == universe[..s];
    var places := Places(universe[..s + 1], kinds);
    forall i | 0 <= i < |matrix + line|
      ensures CellIs((matrix + line)[i], rows, inventories, first, last, places[i].0, places[i].1)
    {
      if i < |matrix| {
        assert places[i] == Places(universe[..s], kinds)[i];
      } else {
        assert places[i] == (universe[s], kinds[i - |matrix|]) && (matrix + line)[i] == line[i - |matrix|];
      }
    }
  }

  /** `sorted({...})` of the symbols of one source. */
  method ObservedSymbols(rows: seq<Row>) returns (symbols: seq<int>)
    ensures Strictly(symbols, INT_LESS) && forall x :: x in symbols <==> exists r :: r in rows && x in r.symbols
  {
    hide Insert;
    IntsAreOrdered();
    symbols := [];
    for i := 0 to |rows|
      invariant Strictly(symbols, INT_LESS)
      invariant forall x :: x in symbols <==> exists r :: r in rows[..i] && x in r.symbols
    {
      var more := rows[i].symbols;
      for j := 0 to |more|
        invariant Strictly(symbols, INT_LESS)
        invariant forall x :: x in symbols <==> (exists r :: r in rows[..i] && x in r.symbols) || x in more[..j]
      {
        if more[j] !in symbols {
          InsertStrictly(symbols, more[j], INT_LESS);
          symbols := Insert(symbols, more[j], INT_LESS);
        }
        assert more[..j + 1] == more[..j] + [more[j]];
      }
      assert more[..|more|] == more;
      assert rows[..i + 1] == rows[..i] + [rows[i]];
    }
    assert rows[..|rows|] == rows;
  }

  /** The loop over the independent sources: their rows, or None when a source is refused. */
  method Gather(inventories: seq<Inventory>, universe: seq<int>, original: set<int>)
      returns (r: Option<(seq<Row>, seq<SourceRow>)>)
    ensures r.None? <==> exists k :: 0 <= k < |inventories| && Refused(inventories, k, universe, original)
    ensures r.Some? ==>
              && r.value.0 == AllRows(inventories) && |r.value.1| == |inventories|
              && forall k :: 0 <= k < |inventories| ==> SourceIs(r.value.1[k], inventories[k])
  {
    hide SourceIs;
    var rows: seq<Row> := [];
    var sources: seq<SourceRow> := [];
    var ids: set<int> := {};
    var bodies: set<int> := {};
    for k := 0 to |inventories|
      invariant rows == AllRows(inventories[..k]) && |sources| == k
      invariant forall i :: 0 <= i < k ==> SourceIs(sources[i], inventories[i])
      invariant forall i :: 0 <= i < k ==> !Refused(inventories, i, universe, original)
      invariant forall x :: x in ids <==> exists i :: 0 <= i < k && inventories[i].id == x
      invariant forall x :: x in bodies <==> exists i :: 0 <= i < k && inventories[i].body == x
    {
      assert inventories[..k + 1][..k] == inventories[..k];
      var s := inventories[k];
      if s.id in ids || s.body in bodies {
        var i :| 0 <= i < k && (inventories[i].id == s.id || inventories[i].body == s.body);
        assert Refused(inventories, k, universe, original);
        return None;
      }
      ids, bodies := ids + {s.id}, bodies + {s.body};
      if s.body in original || !AllIn(s.symbols, universe) {
        assert Refused(inventories, k, universe, original);
        return None;
      }
      if exists r :: r in s.rows && !Overlap(r.symbols, universe) {
        assert Refused(inventories, k, universe, original);
        return None;
      }
      rows := rows + s.rows;
      if |rows| > MAX_INDEPENDENT {
        assert Refused(inventories, k, universe, original);
        return None;
      }
      var symbols := ObservedSymbols(s.rows);
      assert SourceIs(SourceRow(s.id, |s.rows|, symbols), s) by { SourceRecorded(s, symbols); }
      sources := sources + [SourceRow(s.id, |s.rows|, symbols)];
    }
    assert inventories[..|inventories|] == inventories;
    return Some((rows, sources));
  }

  lemma SourceRecorded(s: Inventory, symbols: seq<int>)
    requires Strictly(symbols, INT_LESS) && forall x :: x in symbols <==> exists r :: r in s.rows && x in r.symbols
    ensures SourceIs(SourceRow(s.id, |s.rows|, symbols), s)
  {
  }

  /** `reconcile_effective_dates`, from the parsed sources on: refused exactly when a source is
      refused or a workload bound is exceeded. */
  method Reconcile(nativeRows: seq<Row>, inventories: seq<Inventory>, original: set<int>, first: int, last: int,
                   universe: seq<int>, kinds: seq<int>)
      returns (r: Option<Report>)
    requires first <= last && forall s :: s in inventories ==> s.first <= s.last
    ensures var native, independent := Native(nativeRows), Independent(AllRows(inventories), first, last);
      var groups := Groups(Keyed(native), Keyed(independent));
      var lefts, rights := Select(groups, NativeOnly), Select(groups, IndependentOnly);
      && (forall g :: g in lefts ==> KeyShape(g.key)) && (forall g :: g in rights ==> KeyShape(g.key))
      && (r.None? <==>
            || (exists k :: 0 <= k < |inventories| && Refused(inventories, k, universe, original))
            || |lefts| * |rights| > MAX_PAIRS
            || (Pairs(lefts, rights) != [] && |StatusConflicts(independent)| + |Pairs(lefts, rights)| > MAX_CONFLICTS))
      && (r.Some? ==>
            && r.value.matches == Select(groups, Match) && r.value.nativeOnly == lefts
            && r.value.independentOnly == rights && r.value.ambiguous == Select(groups, Ambiguous)
            && r.value.unknown == Unknown(true, native) + Unknown(false, independent)
            && r.value.conflicts == StatusConflicts(independent) + Pairs(lefts, rights)
            && MatrixIs(r.value.matrix, independent, inventories, first, last, Places(universe, kinds))
            && Tallies(r.value.matrix) == Matrix(independent, universe, kinds)
            && |r.value.sources| == |inventories|
            && forall k :: 0 <= k < |inventories| ==> SourceIs(r.value.sources[k], inventories[k]))
  {
    var gathered := Gather(inventories, universe, original);
    var native, independent := Native(nativeRows), Independent(AllRows(inventories), first, last);
    KeyedShape(native);
    KeyedShape(independent);
    GroupKeys(Keyed(native), Keyed(independent), NativeOnly);
    GroupKeys(Keyed(native), Keyed(independent), IndependentOnly);
    hide Groups, Keyed, Select, Pairs, Matrix, StatusConflicts, Unknown, MatrixIs, SourceIs, Places, Refused;
    if gathered.None? {
      return None;
    }
    var matches, nativeOnly, independentOnly, ambiguous := Bucketing(native, independent);
    var unknown, conflicts := Listing(native, independent);
    if |nativeOnly| * |independentOnly| > MAX_PAIRS {
      return None;
    }
    var all := AddPairs(nativeOnly, independentOnly, conflicts);
    if all.None? {
      return None;
    }
    var matrix := Coverage(independent, inventories, first, last, universe, kinds);
    return Some(Report(matches, nativeOnly, independentOnly, ambiguous, unknown, all.value, matrix, gathered.value.1));
  }
}
