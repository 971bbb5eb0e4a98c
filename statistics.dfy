/**
 * The statistics page: which route items are included, the totals derived from the included
 * ones, and the rows of the comparison chart.
 */
module Statistics {
  import opened Common

  /** A numeric field of a statistics item as the JSON delivers it. */
  datatype Field = Absent | Null | Numeric(n: Num) | NonNumeric

  datatype StatItem = StatItem(
    id: int,
    name: Option<string>,
    isDeleted: bool,
    stops: Option<int>,
    baselineDistance: Field,
    optimizedDistance: Field,
    baselineTime: Field,
    optimizedTime: Field,
    comparable: bool)

  datatype Key = BaselineDistance | OptimizedDistance | BaselineTime | OptimizedTime

  function FieldOf(it: StatItem, key: Key): Field {
    match key
    case BaselineDistance => it.baselineDistance
    case OptimizedDistance => it.optimizedDistance
    case BaselineTime => it.baselineTime
    case OptimizedTime => it.optimizedTime
  }

  /** `safeNumber`: a finite number passes, anything else counts as 0. */
  function SafeNumber(f: Field): (r: real)
    ensures f.Numeric? && f.n.Finite? ==> r == f.n.v
    ensures !(f.Numeric? && f.n.Finite?) ==> r == 0.0
  {
    if f.Numeric? && f.n.Finite? then f.n.v else 0.0
  }

  /** `sum(items, key)`. */
  function Sum(items: seq<StatItem>, key: Key): real {
    if items == [] then 0.0 else SafeNumber(FieldOf(items[0], key)) + Sum(items[1..], key)
  }

  /** Sums add up over concatenation. */
  lemma {:induction false} SumAppend(a: seq<StatItem>, b: seq<StatItem>, key: Key)
    ensures Sum(a + b, key) == Sum(a, key) + Sum(b, key)
  {
    if a != [] {
      assert (a + b)[1..] == a[1..] + b;
      SumAppend(a[1..], b, key);
    } else {
      assert a + b == b;
    }
  }

  /** A sum of fields that are never negative is not negative, and is 0 when no field counts. */
  lemma {:induction false} SumNonNegative(items: seq<StatItem>, key: Key)
    requires forall i :: 0 <= i < |items| ==> SafeNumber(FieldOf(items[i], key)) >= 0.0
    ensures Sum(items, key) >= 0.0
    ensures (forall i :: 0 <= i < |items| ==> SafeNumber(FieldOf(items[i], key)) == 0.0) ==> Sum(items, key) == 0.0
  {
    if items != [] {
      SumNonNegative(items[1..], key);
    }
  }

  function CountWhere(items: seq<StatItem>, p: StatItem -> bool): (n: nat)
    ensures n <= |items|
  {
    if items == [] then 0 else (if p(items[0]) then 1 else 0) + CountWhere(items[1..], p)
  }

  predicate Active(it: StatItem) { !it.isDeleted }
  predicate Archived(it: StatItem) { it.isDeleted }
  /** `x != null`: present and not null, whatever its type. */
  predicate Present(f: Field) { !f.Absent? && !f.Null? }
  predicate HasBaseline(it: StatItem) { Present(it.baselineDistance) && Present(it.baselineTime) }
  predicate HasOptimized(it: StatItem) { Present(it.optimizedDistance) && Present(it.optimizedTime) }
  predicate Comparable(it: StatItem) { it.comparable }

  /** Every item is either active or archived. */
  lemma {:induction false} ActivePlusArchived(items: seq<StatItem>)
    ensures CountWhere(items, Active) + CountWhere(items, Archived) == |items|
  {
    if items != [] {
      ActivePlusArchived(items[1..]);
    }
  }

  /** `itemsIncluded.reduce((acc, r) => acc + (r.stops ?? 0), 0)`. */
  function StopsTotal(items: seq<StatItem>): int {
    if items == [] then 0 else GetOr(items[0].stops, 0) + StopsTotal(items[1..])
  }

  // ---------------------------------------------------------------------------
  // Inclusion
  // ---------------------------------------------------------------------------

  /** `includedMap[id] !== false`: an id the map does not mention is included. */
  predicate IsIncluded(m: map<int, bool>, id: int) {
    !(id in m && !m[id])
  }

  /** `toggleIncluded`'s update: the id's entry becomes the negation of its inclusion. */
  function Toggled(m: map<int, bool>, id: int): map<int, bool> {
    m[id := !IsIncluded(m, id)]
  }

  /** Toggling flips that id and leaves the inclusion of every other id alone. */
  lemma ToggleFlipsOnlyThatId(m: map<int, bool>, id: int, other: int)
    requires other != id
    ensures IsIncluded(Toggled(m, id), id) == !IsIncluded(m, id)
    ensures IsIncluded(Toggled(m, id), other) == IsIncluded(m, other)
    ensures IsIncluded(Toggled(Toggled(m, id), id), id) == IsIncluded(m, id)
  {
  }

  /** `includeAll`: the empty map includes every id. */
  lemma IncludeAllIncludesEverything(id: int)
    ensures IsIncluded(map[], id)
  {
  }

  /** `excludeAll`'s loop: a map holding `false` for each loaded item's id. */
  method ExclusionMap(items: seq<StatItem>) returns (next: map<int, bool>)
    ensures forall i :: 0 <= i < |items| ==> !IsIncluded(next, items[i].id)
    ensures forall id :: id in next ==> !next[id] && exists i :: 0 <= i < |items| && items[i].id == id
  {
    next := map[];
    var i := 0;
    while i < |items|
      invariant 0 <= i <= |items|
      invariant forall j :: 0 <= j < i ==> !IsIncluded(next, items[j].id)
      invariant forall id :: id in next ==> !next[id] && exists j :: 0 <= j < i && items[j].id == id
    {
      next := next[items[i].id := false];
      i := i + 1;
    }
  }

  /** The include/exclude choices, kept across visits (restored from storage when the page opens). */
  class InclusionPanel {
    var includedMap: map<int, bool>

    constructor (saved: map<int, bool>)
      ensures includedMap == saved
    {
      includedMap := saved;
    }

    method Toggle(id: int)
      modifies this
      ensures includedMap == Toggled(old(includedMap), id)
    {
      var next := includedMap;
      next := next[id := !IsIncluded(includedMap, id)];
      includedMap := next;
    }

    method IncludeAll()
      modifies this
      ensures includedMap == map[]
      ensures forall id :: IsIncluded(includedMap, id)
    {
      includedMap := map[];
    }

    method ExcludeAll(items: seq<StatItem>)
      modifies this
      ensures forall i :: 0 <= i < |items| ==> !IsIncluded(includedMap, items[i].id)
      ensures forall id :: id in includedMap ==> !includedMap[id] && exists i :: 0 <= i < |items| && items[i].id == id
    {
      includedMap := ExclusionMap(items);
    }
  }

  /** `itemsAll.filter(r => isIncluded(r.id))`. */
  function IncludedItems(items: seq<StatItem>, m: map<int, bool>): (r: seq<StatItem>)
    ensures |r| <= |items|
    ensures forall x :: x in r <==> x in items && IsIncluded(m, x.id)
  {
    if items == [] then []
    else (if IsIncluded(m, items[0].id) then [items[0]] else []) + IncludedItems(items[1..], m)
  }

  /** The filter keeps the items' order: it distributes over concatenation. */
  lemma {:induction false} IncludedItemsDistributes(a: seq<StatItem>, b: seq<StatItem>, m: map<int, bool>)
    ensures IncludedItems(a + b, m) == IncludedItems(a, m) + IncludedItems(b, m)
  {
    if a == [] {
      assert a + b == b;
    } else {
      assert (a + b)[0] == a[0];
      assert (a + b)[1..] == a[1..] + b;
      IncludedItemsDistributes(a[1..], b, m);
    }
  }

  /** With nothing excluded (after include-all), every loaded item is counted, in order. */
  lemma {:induction false} IncludeAllKeepsEveryItem(items: seq<StatItem>)
    ensures IncludedItems(items, map[]) == items
  {
    if items != [] {
      IncludeAllKeepsEveryItem(items[1..]);
      assert [items[0]] + items[1..] == items;
    }
  }

  function ExcludedItems(items: seq<StatItem>, m: map<int, bool>): (r: seq<StatItem>)
    ensures forall x :: x in r <==> x in items && !IsIncluded(m, x.id)
  {
    if items == [] then []
    else (if IsIncluded(m, items[0].id) then [] else [items[0]]) + ExcludedItems(items[1..], m)
  }

  /** Including and excluding splits the items: counts and every sum add up to the whole. */
  lemma {:induction false} InclusionSplits(items: seq<StatItem>, m: map<int, bool>, key: Key)
    ensures |IncludedItems(items, m)| + |ExcludedItems(items, m)| == |items|
    ensures Sum(IncludedItems(items, m), key) + Sum(ExcludedItems(items, m), key) == Sum(items, key)
  {
    if items != [] {
      InclusionSplits(items[1..], m, key);
      var inc, exc := IncludedItems(items[1..], m), ExcludedItems(items[1..], m);
      if IsIncluded(m, items[0].id) {
        assert IncludedItems(items, m) == [items[0]] + inc;
        assert ExcludedItems(items, m) == exc;
        assert ([items[0]] + inc)[1..] == inc;
      } else {
        assert IncludedItems(items, m) == inc;
        assert ExcludedItems(items, m) == [items[0]] + exc;
        assert ([items[0]] + exc)[1..] == exc;
      }
    }
  }

  // ---------------------------------------------------------------------------
  // Derived totals
  // ---------------------------------------------------------------------------

  datatype Totals = Totals(
    routesTotal: nat,
    routesActive: nat,
    routesArchived: nat,
    stopsTotal: int,
    baselineDistanceM: real,
    optimizedDistanceM: real,
    baselineTimeS: real,
    optimizedTimeS: real,
    routesWithBaseline: nat,
    routesWithOptimized: nat,
    routesComparable: nat,
    distanceSavedM: Option<real>,
    timeSavedS: Option<real>,
    distanceSavedPct: Option<real>,
    timeSavedPct: Option<real>)

  /** `a && b ? a - b : null` for two finite sums: a saving needs both sums non-zero. */
  function Saving(baseline: real, optimized: real): (r: Option<real>)
    ensures r.Some? <==> baseline != 0.0 && optimized != 0.0
    ensures r.Some? ==> r.value + optimized == baseline
  {
    if baseline != 0.0 && optimized != 0.0 then Some(baseline - optimized) else None
  }

  /** `base > 0 && saved != null ? (saved / base) * 100 : null`. */
  function SavingPct(baseline: real, saved: Option<real>): (r: Option<real>)
    ensures r.Some? <==> baseline > 0.0 && saved.Some?
    ensures r.Some? ==> r.value * baseline == saved.value * 100.0
  {
    if baseline > 0.0 && saved.Some? then Some((saved.value / baseline) * 100.0) else None
  }

  /** `derivedTotals` over the included items. */
  function DerivedTotals(included: seq<StatItem>): (t: Totals)
    ensures t.routesTotal == |included|
    ensures t.routesActive == CountWhere(included, Active) && t.routesArchived == CountWhere(included, Archived)
    ensures t.routesWithBaseline == CountWhere(included, HasBaseline)
    ensures t.routesWithOptimized == CountWhere(included, HasOptimized)
    ensures t.routesComparable == CountWhere(included, Comparable)
    ensures t.stopsTotal == StopsTotal(included)
    ensures t.baselineDistanceM == Sum(included, BaselineDistance) && t.optimizedDistanceM == Sum(included, OptimizedDistance)
    ensures t.baselineTimeS == Sum(included, BaselineTime) && t.optimizedTimeS == Sum(included, OptimizedTime)
    ensures t.routesActive + t.routesArchived == t.routesTotal
    ensures t.routesWithBaseline <= t.routesTotal && t.routesWithOptimized <= t.routesTotal
    ensures t.routesComparable <= t.routesTotal
    ensures t.distanceSavedM.Some? <==> t.baselineDistanceM != 0.0 && t.optimizedDistanceM != 0.0
    ensures t.distanceSavedM.Some? ==> t.distanceSavedM.value == t.baselineDistanceM - t.optimizedDistanceM
    ensures t.timeSavedS.Some? <==> t.baselineTimeS != 0.0 && t.optimizedTimeS != 0.0
    ensures t.timeSavedS.Some? ==> t.timeSavedS.value == t.baselineTimeS - t.optimizedTimeS
    ensures t.distanceSavedPct.Some? <==> t.baselineDistanceM > 0.0 && t.distanceSavedM.Some?
    ensures t.distanceSavedPct == SavingPct(t.baselineDistanceM, t.distanceSavedM)
    ensures t.timeSavedPct.Some? <==> t.baselineTimeS > 0.0 && t.timeSavedS.Some?
    ensures t.timeSavedPct == SavingPct(t.baselineTimeS, t.timeSavedS)
  {
    var bd, od := Sum(included, BaselineDistance), Sum(included, OptimizedDistance);
    var bt, ot := Sum(included, BaselineTime), Sum(included, OptimizedTime);
    var ds, ts := Saving(bd, od), Saving(bt, ot);
    ActivePlusArchived(included);
    Totals(|included|, CountWhere(included, Active), CountWhere(included, Archived),
           StopsTotal(included), bd, od, bt, ot,
           CountWhere(included, HasBaseline), CountWhere(included, HasOptimized),
           CountWhere(included, Comparable), ds, ts, SavingPct(bd, ds), SavingPct(bt, ts))
  }

  // ---------------------------------------------------------------------------
  // Chart data
  // ---------------------------------------------------------------------------

  function SortKey(it: StatItem): real {
    SafeNumber(it.baselineDistance)
  }

  predicate NonIncreasing(s: seq<StatItem>) {
    forall i, j :: 0 <= i < j < |s| ==> SortKey(s[i]) >= SortKey(s[j])
  }

  /** Puts `x` before the first element whose key is not above its own. */
  function InsertDescending(x: StatItem, s: seq<StatItem>): (r: seq<StatItem>)
    requires NonIncreasing(s)
    ensures NonIncreasing(r) && multiset(r) == multiset(s) + multiset{x}
  {
    if s == [] || SortKey(s[0]) <= SortKey(x) then
      NonIncreasingCons(x, s);
      [x] + s
    else
      var rest := InsertDescending(x, s[1..]);
      assert s == [s[0]] + s[1..];
      HeadAboveInsert(x, s, rest);
      NonIncreasingCons(s[0], rest);
      [s[0]] + rest
  }

  lemma NonIncreasingCons(h: StatItem, t: seq<StatItem>)
    requires NonIncreasing(t)
    requires forall k :: 0 <= k < |t| ==> SortKey(h) >= SortKey(t[k])
    ensures NonIncreasing([h] + t)
  {
    var r := [h] + t;
    forall i, j | 0 <= i < j < |r| ensures SortKey(r[i]) >= SortKey(r[j]) {
      assert r[j] == t[j - 1];
      if i > 0 {
        assert r[i] == t[i - 1];
      }
    }
  }

  lemma HeadAboveInsert(x: StatItem, s: seq<StatItem>, rest: seq<StatItem>)
    requires s != [] && NonIncreasing(s) && SortKey(s[0]) > SortKey(x)
    requires multiset(rest) == multiset(s[1..]) + multiset{x}
    ensures forall k :: 0 <= k < |rest| ==> SortKey(s[0]) >= SortKey(rest[k])
  {
    forall k | 0 <= k < |rest| ensures SortKey(s[0]) >= SortKey(rest[k]) {
      assert rest[k] in multiset(rest);
      if rest[k] != x {
        assert rest[k] in s[1..];
        var j :| 0 <= j < |s[1..]| && s[1..][j] == rest[k];
        assert s[j + 1] == rest[k];
      }
    }
  }

  /**
   * The comparator `(a, b) => key(b) - key(a)`: largest baseline distance first, ties kept in
   * their original order.
   */
  function SortDescending(s: seq<StatItem>): (r: seq<StatItem>)
    ensures NonIncreasing(r) && multiset(r) == multiset(s)
  {
    if s == [] then []
    else
      assert s == [s[0]] + s[1..];
      InsertDescending(s[0], SortDescending(s[1..]))
  }

  function ComparableItems(items: seq<StatItem>): (r: seq<StatItem>)
    ensures forall x :: x in r <==> x in items && x.comparable
  {
    if items == [] then []
    else (if items[0].comparable then [items[0]] else []) + ComparableItems(items[1..])
  }

  /** The filter keeps the items' order: it distributes over concatenation. */
  lemma {:induction false} ComparableItemsDistributes(a: seq<StatItem>, b: seq<StatItem>)
    ensures ComparableItems(a + b) == ComparableItems(a) + ComparableItems(b)
  {
    if a == [] {
      assert a + b == b;
    } else {
      assert (a + b)[0] == a[0];
      assert (a + b)[1..] == a[1..] + b;
      ComparableItemsDistributes(a[1..], b);
    }
  }

  /**
   * `(r.name || "#" + r.id).slice(0, 14)`: the first 14 characters of the name, or of `#id`
   * when the name is missing or empty; all of it when it is shorter.
   */
  function ChartName(it: StatItem): (r: string)
    ensures var text := if it.name.Some? && it.name.value != "" then it.name.value else "#" + IntToDecimal(it.id);
      && StartsWith(text, r)
      && |r| == (if |text| <= 14 then |text| else 14)
  {
    var text := if it.name.Some? && it.name.value != "" then it.name.value else "#" + IntToDecimal(it.id);
    if |text| <= 14 then text else text[..14]
  }

  /** A chart row before the numbers are rounded for display. */
  datatype ChartRow = ChartRow(name: string, baselineDistance: Field, optimizedDistance: Field,
                               baselineTime: Field, optimizedTime: Field)

  function ToRow(it: StatItem): ChartRow {
    ChartRow(ChartName(it), it.baselineDistance, it.optimizedDistance, it.baselineTime, it.optimizedTime)
  }

  /** `chartData`: the ten comparable included items with the longest baseline, longest first. */
  function ChartData(included: seq<StatItem>): (rows: seq<ChartRow>)
    ensures |rows| <= 10
    ensures var top := SortDescending(ComparableItems(included));
      && |rows| == (if |top| < 10 then |top| else 10)
      && forall i :: 0 <= i < |rows| ==> rows[i] == ToRow(top[i])
  {
    var top := SortDescending(ComparableItems(included));
    var n := if |top| < 10 then |top| else 10;
    seq(n, i requires 0 <= i < n => ToRow(top[i]))
  }

  /**
   * Every chart row comes from an included comparable item, and the rows run from the longest
   * baseline distance down; when fewer than ten items are comparable, every one of them is shown.
   */
  lemma ChartRowsAreRanked(included: seq<StatItem>)
    ensures var rows, top := ChartData(included), SortDescending(ComparableItems(included));
      && (forall i :: 0 <= i < |rows| ==> top[i] in included && top[i].comparable)
      && (forall i, j :: 0 <= i < j < |rows| ==> SafeNumber(rows[i].baselineDistance) >= SafeNumber(rows[j].baselineDistance))
      && (|top| <= 10 ==> multiset(top) == multiset(ComparableItems(included)) && |rows| == |top|)
  {
    var rows, top := ChartData(included), SortDescending(ComparableItems(included));
    forall i | 0 <= i < |rows| ensures top[i] in included && top[i].comparable {
      assert top[i] in multiset(ComparableItems(included));
    }
  }
}
