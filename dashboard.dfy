/** The overview page (frontend/components/Dashboard.tsx): the per-date
    chart series of the last seven dates, the five items with the most
    waste, and the figures on the stat cards. */
module Dashboard {
  import opened Wrappers
  import opened Records
  import opened Folds
  import opened Grouping
  import opened Sorting
  import opened Strings
  import opened Calendar
  import opened Numeric

  // ---------------------------------------------------------------------
  // chartData

  /** One bar of the chart: the totals of one date. */
  datatype DayPoint = DayPoint(date: string, prepared: int, sold: int, waste: int)

  /** What `dailyMap.get(date) || …` starts a new date from (the date itself
      is overwritten by the record's). */
  const NoDay := DayPoint("", 0, 0, 0)

  function AddDay(p: DayPoint, r: DailyRecord): DayPoint
  {
    DayPoint(r.date, p.prepared + r.prepared, p.sold + r.sold, p.waste + r.waste)
  }

  /** The `dailyMap` the `forEach` leaves behind. */
  function DailyTotals(history: seq<DailyRecord>): Table<string, DayPoint>
  {
    Group(history, DateOf, NoDay, AddDay)
  }

  /** The chart's comparator, `getTime(a) - getTime(b) <= 0`, on the date
      strings; IsoChartChronological shows it is the `getTime` order for
      ISO dates. */
  predicate ByDate(a: DayPoint, b: DayPoint)
  {
    !LexLess(b.date, a.date)
  }

  /** a's date is strictly before b's. */
  predicate EarlierDate(a: DayPoint, b: DayPoint)
  {
    LexLess(a.date, b.date)
  }

  /** How many dates the chart shows. */
  const ChartDays := 7

  /** `Array.from(dailyMap.values()).sort(byDate)` */
  function SortedPoints(history: seq<DailyRecord>): seq<DayPoint>
  {
    GroupDistinct(history, DateOf, NoDay, AddDay);
    SortBy(Values(DailyTotals(history)), ByDate)
  }

  /** `Array.from(dailyMap.values()).sort(byDate).slice(-7)` */
  function ChartSeries(history: seq<DailyRecord>): seq<DayPoint>
  {
    TakeLast(SortedPoints(history), ChartDays)
  }

  /** The memo's body: the `forEach` that fills `dailyMap`, then the sort
      and the slice. */
  method ChartData(history: seq<DailyRecord>) returns (points: seq<DayPoint>)
    ensures points == ChartSeries(history)
  {
    var keys: seq<string> := [];
    var values: map<string, DayPoint> := map[];
    for i := 0 to |history|
      invariant Table(keys, values) == DailyTotals(history[..i])
    {
      var h := history[i];
      var existing := if h.date in values then values[h.date] else NoDay;
      if h.date !in values {
        keys := keys + [h.date];
      }
      values := values[h.date := DayPoint(h.date, existing.prepared + h.prepared, existing.sold + h.sold, existing.waste + h.waste)];
      assert history[..i + 1][..i] == history[..i];
    }
    assert history[..|history|] == history;
    GroupKeys(history, DateOf, NoDay, AddDay);
    points := TakeLast(SortBy(Values(Table(keys, values)), ByDate), ChartDays);
  }

  lemma ByDateOrder()
    ensures TotalPreorder(ByDate)
  {
    forall a: DayPoint, b: DayPoint
      ensures ByDate(a, b) || ByDate(b, a)
    {
      if LexLess(a.date, b.date) {
        LexLessAsymmetric(a.date, b.date);
      }
    }
    forall a: DayPoint, b: DayPoint, c: DayPoint | ByDate(a, b) && ByDate(b, c)
      ensures ByDate(a, c)
    {
      LexLessTotal(a.date, b.date);
      if LexLess(c.date, a.date) && LexLess(a.date, b.date) {
        LexLessTransitive(c.date, a.date, b.date);
      }
    }
  }

  /** Every point carries the date it is filed under. */
  lemma {:induction false} DailyTotalsDated(history: seq<DailyRecord>)
    ensures forall d :: d in DailyTotals(history).values ==> DailyTotals(history).values[d].date == d
  {
    if history != [] {
      var rest, r := history[..|history| - 1], history[|history| - 1];
      DailyTotalsDated(rest);
      var t := DailyTotals(rest);
      assert DailyTotals(history) == Put(t, r.date, AddDay(Lookup(t, r.date, NoDay), r));
    }
  }

  /** The point of a date sums exactly the records of that date. */
  lemma DailyTotalsAreSums(history: seq<DailyRecord>, d: string)
    requires d in DailyTotals(history).values
    ensures (exists j :: 0 <= j < |history| && history[j].date == d)
    ensures var p := DailyTotals(history).values[d];
      p.date == d
      && p.prepared == Sum(Where(history, KeyIs(DateOf, d)), Prepared)
      && p.sold == Sum(Where(history, KeyIs(DateOf, d)), Sold)
      && p.waste == Sum(Where(history, KeyIs(DateOf, d)), Waste)
  {
    GroupKeyWitness(history, DateOf, NoDay, AddDay, d);
    DailyTotalsDated(history);
    GroupValue(history, DateOf, NoDay, AddDay, d);
    var ws := Where(history, KeyIs(DateOf, d));
    FoldComponent(ws, NoDay, AddDay, (p: DayPoint) => p.prepared, Prepared);
    FoldComponent(ws, NoDay, AddDay, (p: DayPoint) => p.sold, Sold);
    FoldComponent(ws, NoDay, AddDay, (p: DayPoint) => p.waste, Waste);
  }

  /** Every element of the sorted list is the point of its own date. */
  lemma SortedPointsFiled(history: seq<DailyRecord>)
    ensures WellFormed(DailyTotals(history))
    ensures var t := DailyTotals(history);
      var s := SortedPoints(history);
      |s| == |t.keys|
      && (forall i :: 0 <= i < |s| ==> s[i].date in t.values && s[i] == t.values[s[i].date])
  {
    GroupKeys(history, DateOf, NoDay, AddDay);
    DailyTotalsDated(history);
    var t := DailyTotals(history);
    ByDateOrder();
    SortBySpec(Values(t), ByDate);
    PermutedValues(t, SortedPoints(history), (p: DayPoint) => p.date);
  }

  /** The sorted list holds each date once, in strictly ascending order. */
  lemma SortedPointsAscending(history: seq<DailyRecord>)
    ensures var s := SortedPoints(history);
      forall i, j :: 0 <= i < j < |s| ==> EarlierDate(s[i], s[j])
  {
    SortedPointsFiled(history);
    DailyTotalsDated(history);
    var t := DailyTotals(history);
    var all := Values(t);
    var s := SortedPoints(history);
    ByDateOrder();
    SortBySpec(all, ByDate);
    SortedPairs(s, ByDate);
    forall a, b | 0 <= a < b < |all|
      ensures all[a] != all[b]
    {
      assert t.keys[a] in t.values && t.keys[b] in t.values;
      assert all[a].date == t.keys[a] && all[b].date == t.keys[b];
    }
    PermutationDistinct(all, s);
    forall i, j | 0 <= i < j < |s|
      ensures EarlierDate(s[i], s[j])
    {
      assert ByDate(s[i], s[j]);
      LexLessTotal(s[i].date, s[j].date);
    }
  }

  /** The chart shows the seven latest dates, or all of them if there are
      fewer. */
  lemma ChartLength(history: seq<DailyRecord>)
    ensures var n := |DailyTotals(history).keys|;
      |ChartSeries(history)| == if n < ChartDays then n else ChartDays
  {
    SortedPointsFiled(history);
  }

  /** One point per distinct date, in ascending date order, each summing
      the prepared, sold and waste counts of exactly that date's records. */
  lemma ChartTotals(history: seq<DailyRecord>)
    ensures var c := ChartSeries(history);
      forall i :: 0 <= i < |c| ==>
        (exists j :: 0 <= j < |history| && history[j].date == c[i].date)
        && c[i].prepared == Sum(Where(history, KeyIs(DateOf, c[i].date)), Prepared)
        && c[i].sold == Sum(Where(history, KeyIs(DateOf, c[i].date)), Sold)
        && c[i].waste == Sum(Where(history, KeyIs(DateOf, c[i].date)), Waste)
  {
    SortedPointsFiled(history);
    var t := DailyTotals(history);
    var s := SortedPoints(history);
    var c := ChartSeries(history);
    forall i | 0 <= i < |c|
      ensures (exists j :: 0 <= j < |history| && history[j].date == c[i].date)
        && c[i].prepared == Sum(Where(history, KeyIs(DateOf, c[i].date)), Prepared)
        && c[i].sold == Sum(Where(history, KeyIs(DateOf, c[i].date)), Sold)
        && c[i].waste == Sum(Where(history, KeyIs(DateOf, c[i].date)), Waste)
    {
      assert c[i] == s[|s| - |c| + i];
      DailyTotalsAreSums(history, c[i].date);
    }
  }

  /** The chart is in strictly ascending date order. */
  lemma ChartAscending(history: seq<DailyRecord>)
    ensures var c := ChartSeries(history);
      forall i, j :: 0 <= i < j < |c| ==> LexLess(c[i].date, c[j].date)
  {
    SortedPointsAscending(history);
    TakeLastPairs(SortedPoints(history), ChartDays, EarlierDate);
  }

  /** Every date of the history that the chart leaves out is earlier than
      every date it shows. */
  lemma ChartLatestDates(history: seq<DailyRecord>, j: int)
    requires 0 <= j < |history|
    requires forall i :: 0 <= i < |ChartSeries(history)| ==> ChartSeries(history)[i].date != history[j].date
    ensures forall i :: 0 <= i < |ChartSeries(history)| ==> LexLess(history[j].date, ChartSeries(history)[i].date)
  {
    SortedPointsFiled(history);
    SortedPointsAscending(history);
    SortedPointsCoverDates(history, j);
    var s := SortedPoints(history);
    var c := ChartSeries(history);
    var d := history[j].date;
    var m :| 0 <= m < |s| && s[m].date == d;
    DateBeforeChart(s, m, d);
    forall i | 0 <= i < |c|
      ensures LexLess(d, c[i].date)
    {
      assert c[i] == s[|s| - |c| + i];
      assert EarlierDate(s[m], s[|s| - |c| + i]);
    }
  }

  /** A date the chart does not show sits before the points it keeps. */
  lemma DateBeforeChart(s: seq<DayPoint>, m: int, d: string)
    requires 0 <= m < |s| && s[m].date == d
    requires forall i :: 0 <= i < |TakeLast(s, ChartDays)| ==> TakeLast(s, ChartDays)[i].date != d
    ensures m < |s| - |TakeLast(s, ChartDays)|
  {
    var c := TakeLast(s, ChartDays);
    forall k | |s| - |c| <= k < |s|
      ensures s[k].date != d
    {
      assert s[k] == c[k - (|s| - |c|)];
    }
  }

  /** Every date of the history has its point in the sorted list. */
  lemma SortedPointsCoverDates(history: seq<DailyRecord>, j: int)
    requires 0 <= j < |history|
    ensures exists m :: 0 <= m < |SortedPoints(history)| && SortedPoints(history)[m].date == history[j].date
  {
    SortedPointsFiled(history);
    var t := DailyTotals(history);
    var all := Values(t);
    var s := SortedPoints(history);
    var d := history[j].date;
    GroupKeyPresent(history, DateOf, NoDay, AddDay, j);
    assert d in t.keys;
    var a :| 0 <= a < |t.keys| && t.keys[a] == d;
    DailyTotalsDated(history);
    assert all[a].date == d;
    ByDateOrder();
    SortBySpec(all, ByDate);
    assert all[a] in multiset(s);
    var m :| 0 <= m < |s| && s[m] == all[a];
  }

  /** For ISO dates, the chart runs forward in time: what the `getTime`
      comparator promises. */
  lemma IsoChartChronological(history: seq<DailyRecord>)
    requires forall j :: 0 <= j < |history| ==> ParseIsoDate(history[j].date).Some?
    ensures var c := ChartSeries(history);
      (forall i :: 0 <= i < |c| ==> ParseIsoDate(c[i].date).Some?)
      && forall i, j :: 0 <= i < j < |c| ==>
        DayNumber(ParseIsoDate(c[i].date).value) < DayNumber(ParseIsoDate(c[j].date).value)
  {
    ChartTotals(history);
    ChartAscending(history);
    var c := ChartSeries(history);
    assert forall i :: 0 <= i < |c| ==> ParseIsoDate(c[i].date).Some?;
    forall i, j | 0 <= i < j < |c|
      ensures DayNumber(ParseIsoDate(c[i].date).value) < DayNumber(ParseIsoDate(c[j].date).value)
    {
      IsoOrderIsChronological(c[i].date, c[j].date);
    }
  }

  // ---------------------------------------------------------------------
  // topWasteItems

  function AddWaste(total: int, r: DailyRecord): int
  {
    total + r.waste
  }

  /** The `wasteMap` the `forEach` leaves behind (`wasteMap[name] || 0`). */
  function WasteByItem(history: seq<DailyRecord>): Table<string, int>
  {
    Group(history, ItemName, 0, AddWaste)
  }

  /** The comparator `b[1] - a[1] <= 0`: more waste first. */
  predicate ByWasteDescending(a: (string, int), b: (string, int))
  {
    b.1 <= a.1
  }

  /** How many items the ranking shows. */
  const TopItems := 5

  /** `Object.entries(wasteMap).sort(byWaste).slice(0, 5)` */
  function TopWaste(history: seq<DailyRecord>): seq<(string, int)>
  {
    GroupKeys(history, ItemName, 0, AddWaste);
    TakeFirst(SortBy(Entries(WasteByItem(history)), ByWasteDescending), TopItems)
  }

  /** The memo's body: the `forEach` that fills `wasteMap`, then the sort
      and the slice. */
  method TopWasteItems(history: seq<DailyRecord>) returns (top: seq<(string, int)>)
    ensures top == TopWaste(history)
  {
    var keys: seq<string> := [];
    var wasteMap: map<string, int> := map[];
    for i := 0 to |history|
      invariant Table(keys, wasteMap) == WasteByItem(history[..i])
    {
      var curr := history[i];
      var so_far := if curr.itemName in wasteMap then wasteMap[curr.itemName] else 0;
      if curr.itemName !in wasteMap {
        keys := keys + [curr.itemName];
      }
      wasteMap := wasteMap[curr.itemName := so_far + curr.waste];
      assert history[..i + 1][..i] == history[..i];
    }
    assert history[..|history|] == history;
    GroupKeys(history, ItemName, 0, AddWaste);
    top := TakeFirst(SortBy(Entries(Table(keys, wasteMap)), ByWasteDescending), TopItems);
  }

  lemma ByWasteOrder()
    ensures TotalPreorder(ByWasteDescending)
  {
  }

  /** An item's entry is the summed waste of the records with exactly its
      name. */
  lemma ItemWasteIsSum(history: seq<DailyRecord>, name: string)
    ensures Lookup(WasteByItem(history), name, 0) == Sum(Where(history, KeyIs(ItemName, name)), Waste)
  {
    GroupValue(history, ItemName, 0, AddWaste, name);
    FoldComponent(Where(history, KeyIs(ItemName, name)), 0, AddWaste, (v: int) => v, Waste);
  }

  /** Every element of the sorted entries is an item's own entry. */
  lemma SortedEntriesFiled(history: seq<DailyRecord>)
    ensures WellFormed(WasteByItem(history))
    ensures var t := WasteByItem(history);
      var s := SortBy(Entries(t), ByWasteDescending);
      |s| == |t.keys|
      && (forall i :: 0 <= i < |s| ==> s[i].0 in t.values && s[i].1 == t.values[s[i].0])
  {
    GroupKeys(history, ItemName, 0, AddWaste);
    var t := WasteByItem(history);
    ByWasteOrder();
    SortBySpec(Entries(t), ByWasteDescending);
    PermutedEntries(t, SortBy(Entries(t), ByWasteDescending));
  }

  /** No item appears twice in the ranking. */
  lemma TopWasteNamesDistinct(history: seq<DailyRecord>)
    ensures var top := TopWaste(history);
      forall i, j :: 0 <= i < j < |top| ==> top[i].0 != top[j].0
  {
    SortedEntriesFiled(history);
    var t := WasteByItem(history);
    var s := SortBy(Entries(t), ByWasteDescending);
    var top := TopWaste(history);
    ByWasteOrder();
    SortBySpec(Entries(t), ByWasteDescending);
    PermutedKeysDistinct(t, s);
    forall i, j | 0 <= i < j < |top|
      ensures top[i].0 != top[j].0
    {
      assert top[i] == s[i] && top[j] == s[j];
    }
  }

  /** At most five entries, each naming a distinct item of the history
      with its summed waste, in non-increasing order of waste. */
  lemma TopWasteRanking(history: seq<DailyRecord>)
    ensures var n := |WasteByItem(history).keys|;
      |TopWaste(history)| == if n < TopItems then n else TopItems
    ensures var top := TopWaste(history);
      forall i :: 0 <= i < |top| ==>
        (exists j :: 0 <= j < |history| && history[j].itemName == top[i].0)
        && top[i].1 == Sum(Where(history, KeyIs(ItemName, top[i].0)), Waste)
    ensures var top := TopWaste(history);
      forall i, j :: 0 <= i < j < |top| ==> top[i].1 >= top[j].1
  ensures var top := TopWaste(history);
      forall i, j :: 0 <= i < j < |top| ==> top[i].0 != top[j].0
  {
    SortedEntriesFiled(history);
    var t := WasteByItem(history);
    var s := SortBy(Entries(t), ByWasteDescending);
    var top := TopWaste(history);
    ByWasteOrder();
    SortBySpec(Entries(t), ByWasteDescending);
    SortedPairs(s, ByWasteDescending);
    TopWasteNamesDistinct(history);
    forall i | 0 <= i < |top|
      ensures (exists j :: 0 <= j < |history| && history[j].itemName == top[i].0)
        && top[i].1 == Sum(Where(history, KeyIs(ItemName, top[i].0)), Waste)
    {
      assert top[i] == s[i];
      GroupKeyWitness(history, ItemName, 0, AddWaste, top[i].0);
      ItemWasteIsSum(history, top[i].0);
    }
    forall i, j | 0 <= i < j < |top|
      ensures top[i].1 >= top[j].1
    {
      assert top[i] == s[i] && top[j] == s[j];
    }
  }

  /** An item the ranking leaves out wasted no more than any item it shows. */
  lemma TopWasteLargest(history: seq<DailyRecord>, j: int)
    requires 0 <= j < |history|
    requires forall i :: 0 <= i < |TopWaste(history)| ==> TopWaste(history)[i].0 != history[j].itemName
    ensures forall i :: 0 <= i < |TopWaste(history)| ==>
      Sum(Where(history, KeyIs(ItemName, history[j].itemName)), Waste) <= TopWaste(history)[i].1
  {
    SortedEntriesFiled(history);
    var t := WasteByItem(history);
    var es := Entries(t);
    var s := SortBy(es, ByWasteDescending);
    var top := TopWaste(history);
    var name := history[j].itemName;
    GroupKeyPresent(history, ItemName, 0, AddWaste, j);
    assert name in t.keys;
    var a :| 0 <= a < |t.keys| && t.keys[a] == name;
    ByWasteOrder();
    SortBySpec(es, ByWasteDescending);
    SortedPairs(s, ByWasteDescending);
    assert es[a] in multiset(s);
    var m :| 0 <= m < |s| && s[m] == es[a];
    assert m >= |top|;
    ItemWasteIsSum(history, name);
    forall i | 0 <= i < |top|
      ensures Sum(Where(history, KeyIs(ItemName, name)), Waste) <= top[i].1
    {
      assert top[i] == s[i];
    }
  }

  /** Items with equal waste keep the order in which their names first
      appear in the history (the sort is stable and `Object.entries` lists
      keys in insertion order). */
  lemma TopWasteTies(history: seq<DailyRecord>, i: int, j: int)
    requires 0 <= i < j < |TopWaste(history)|
    requires TopWaste(history)[i].1 == TopWaste(history)[j].1
    ensures AppearsBefore(history, ItemName, TopWaste(history)[i].0, TopWaste(history)[j].0)
  {
    GroupKeys(history, ItemName, 0, AddWaste);
    GroupKeyOrder(history, ItemName, 0, AddWaste);
    var t := WasteByItem(history);
    var es := Entries(t);
    var s := SortBy(es, ByWasteDescending);
    var top := TopWaste(history);
    assert top[i] == s[i] && top[j] == s[j];
    ByWasteOrder();
    SortedTiesKeepOrder(es, ByWasteDescending, i, j);
    var a, b :| 0 <= a < b < |es| && es[a] == s[i] && es[b] == s[j];
    assert AppearsBefore(history, ItemName, t.keys[a], t.keys[b]);
  }

  // ---------------------------------------------------------------------
  // Stat cards

  /** The "Items Sold" card. */
  function ItemsSold(history: seq<DailyRecord>): int
  {
    Sum(history, Sold)
  }

  function PointSold(p: DayPoint): int { p.sold }

  /** "Items Sold" is what the per-date points add up to over all dates,
      and is not negative for sane records. */
  lemma ItemsSoldPerDate(history: seq<DailyRecord>)
    ensures WellFormed(DailyTotals(history))
    ensures Sum(Values(DailyTotals(history)), PointSold) == ItemsSold(history)
    ensures AllSane(history) ==> ItemsSold(history) >= 0
  {
    GroupDistinct(history, DateOf, NoDay, AddDay);
    var t := DailyTotals(history);
    forall d | d in t.values
      ensures PointSold(t.values[d]) == KeyTotal(history, DateOf, Sold)(d)
    {
      DailyTotalsAreSums(history, d);
    }
    SumValues(t, PointSold, KeyTotal(history, DateOf, Sold));
    GroupPartition(history, DateOf, NoDay, AddDay, Sold);
    if AllSane(history) {
      SumNonNegative(history, Sold);
    }
  }

  function EntryWaste(e: (string, int)): int { e.1 }

  /** The per-item totals, before the ranking cuts them to five, add up to
      the total waste of the history. */
  lemma WasteByItemPartition(history: seq<DailyRecord>)
    ensures WellFormed(WasteByItem(history))
    ensures Sum(Entries(WasteByItem(history)), EntryWaste) == Sum(history, Waste)
  {
    GroupDistinct(history, ItemName, 0, AddWaste);
    var t := WasteByItem(history);
    forall k | k in t.values
      ensures EntryWaste((k, t.values[k])) == KeyTotal(history, ItemName, Waste)(k)
    {
      ItemWasteIsSum(history, k);
    }
    SumEntries(t, EntryWaste, KeyTotal(history, ItemName, Waste));
    GroupPartition(history, ItemName, 0, AddWaste, Waste);
  }

  /** The daily average under each ranked item:
      `Math.floor(waste / Math.max(1, history.length))`, which divides by the
      number of records in the whole history. */
  function DailyAverage(waste: int, records: nat): (n: int)
    ensures n == waste / (if records < 1 then 1 else records)
    ensures 0 <= waste ==> 0 <= n <= waste
  {
    FloorDiv(waste, if records < 1 then 1 else records);
    Floor(waste as real / (if records < 1 then 1 else records) as real)
  }

  /** The "Waste Percentage" card: the value with a `%` appended unless it
      already holds one. */
  function PercentLabel(value: string): (shown: string)
    ensures Contains(shown, "%")
    ensures Contains(value, "%") ==> shown == value
    ensures !Contains(value, "%") ==> shown == value + "%"
  {
    if Contains(value, "%") then value
    else
      assert OccursAt(value + "%", "%", |value|);
      ContainsAt(value + "%", "%");
      value + "%"
  }

  /** Labelling twice is labelling once. */
  lemma PercentLabelIdempotent(value: string)
    ensures PercentLabel(PercentLabel(value)) == PercentLabel(value)
  {
  }
}
