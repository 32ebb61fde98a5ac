/** The static menu catalogue and the demo history generator
    (frontend/constants.ts). The clock and `Math.random` are inputs: today's
    date is a parameter, and the random draws come as a sequence of reals
    in [0, 1), two per record, in the order the loops make them. */
module Constants {
  import opened Wrappers
  import opened Records
  import opened Numeric
  import opened Calendar

  /** `MENU_ITEMS` */
  const MenuItems: seq<MenuItem> := [
    MenuItem("1", "Signature Burger", "Main", 15, 6),
    MenuItem("2", "Quinoa Salad", "Appetizer", 12, 4),
    MenuItem("3", "Truffle Pasta", "Main", 22, 9),
    MenuItem("4", "Grilled Salmon", "Main", 25, 12),
    MenuItem("5", "Avocado Toast", "Breakfast", 14, 5)
  ]

  /** Five items with ids "1" to "5" in order, distinct names, and positive
      prices above their costs. */
  lemma CatalogueShape()
    ensures |MenuItems| == 5
    ensures forall i :: 0 <= i < 5 ==> MenuItems[i].id == [('1' as int + i) as char]
    ensures forall i, j :: 0 <= i < j < 5 ==> MenuItems[i].id != MenuItems[j].id && MenuItems[i].name != MenuItems[j].name
    ensures forall i :: 0 <= i < 5 ==> 0 < MenuItems[i].costPerUnit < MenuItems[i].unitPrice
  {
    forall i, j | 0 <= i < j < 5
      ensures MenuItems[i].id != MenuItems[j].id && MenuItems[i].name != MenuItems[j].name
    {
      assert MenuItems[i].id[0] != MenuItems[j].id[0];
      assert MenuItems[i].name[0] != MenuItems[j].name[0];
    }
  }

  /** One day of the generated history: the `YYYY-MM-DD` part of
      `toISOString()` and the local `getDay()`. */
  datatype Day = Day(date: string, weekday: int)

  /** The day shown for a calendar date: its ISO string and its weekday. */
  function DayOf(d: Date): (r: Day)
    requires ValidDate(d)
    ensures 0 <= r.weekday <= 6 && |r.date| == 10
  {
    Day(IsoString(d), Weekday(d))
  }

  function IsWeekend(d: Day): bool
  {
    d.weekday == 0 || d.weekday == 6
  }

  predicate IsRandom(x: real)
  {
    0.0 <= x < 1.0
  }

  /** `Math.floor(base * (isWeekend ? 1.4 : 1.0))` */
  function WeekdaySold(base: int, weekend: bool): int
  {
    Floor(base as real * (if weekend then 1.4 else 1.0))
  }

  /** `Math.floor(sold * (1.05 + Math.random() * 0.15))` */
  function PreparedFor(sold: int, random: real): int
  {
    Floor(sold as real * (1.05 + random * 0.15))
  }

  /** The record built for one item on one day from two random draws. */
  function SeedRecord(d: Day, item: MenuItem, r1: real, r2: real): DailyRecord
  {
    var base := 20 + Floor(r1 * 30.0);
    var sold := WeekdaySold(base, IsWeekend(d));
    var prepared := PreparedFor(sold, r2);
    var waste := prepared - sold;
    DailyRecord(d.date, item.id, item.name, prepared, sold, waste, sold * item.unitPrice, waste * item.costPerUnit)
  }

  /** n days, oldest first, starting `back` days before today:
      `date.setDate(now.getDate() - i)` for i from `back` down to
      `back - n + 1`. */
  function DaysFrom(today: Date, back: nat, n: nat): (days: seq<Day>)
    requires ValidDate(today) && DayNumber(today) >= back && n <= back + 1
    ensures |days| == n
  {
    seq(n, i requires 0 <= i < n => DayOf(DaysAgo(today, back - i)))
  }

  /** The days name consecutive dates, the first `back` days before today,
      each with its own weekday. */
  lemma DaysFromAreConsecutive(today: Date, back: nat, n: nat)
    requires ValidDate(today) && DayNumber(today) >= back && n <= back + 1
    ensures forall i :: 0 <= i < n ==>
      var p := ParseIsoDate(DaysFrom(today, back, n)[i].date);
      p.Some? && DayNumber(p.value) == DayNumber(today) - back + i
      && DaysFrom(today, back, n)[i].weekday == Weekday(p.value)
  {
    var days := DaysFrom(today, back, n);
    forall i | 0 <= i < n
      ensures var p := ParseIsoDate(days[i].date);
        p.Some? && DayNumber(p.value) == DayNumber(today) - back + i && days[i].weekday == Weekday(p.value)
    {
      var date := DaysAgo(today, back - i);
      assert days[i] == DayOf(date);
      IsoStringRoundTrip(date);
    }
  }

  /** `generateHistory`: the fourteen days before today, oldest first, each
      day the five items in catalogue order. */
  method GenerateHistory(today: Date, randoms: seq<real>) returns (history: seq<DailyRecord>)
    requires ValidDate(today) && DayNumber(today) >= 14 && |randoms| == 2 * 14 * |MenuItems|
    ensures |history| == 14 * |MenuItems|
    ensures forall k :: 0 <= k < |history| ==>
      history[k] == SeedRecord(DaysFrom(today, 14, 14)[k / 5], MenuItems[k % 5], randoms[2 * k], randoms[2 * k + 1])
  {
    history := BuildHistory(DaysFrom(today, 14, 14), randoms);
  }

  /** The loop of `generateHistory` over its fourteen days, oldest first. */
  method BuildHistory(days: seq<Day>, randoms: seq<real>) returns (history: seq<DailyRecord>)
    requires |days| == 14 && |randoms| == 2 * 14 * |MenuItems|
    ensures |history| == 14 * |MenuItems|
    ensures forall k :: 0 <= k < |history| ==>
      history[k] == SeedRecord(days[k / 5], MenuItems[k % 5], randoms[2 * k], randoms[2 * k + 1])
  {
    history := [];
    var i := 14;
    while i >= 1
      invariant 0 <= i <= 14
      invariant |history| == (14 - i) * 5
      invariant forall k :: 0 <= k < |history| ==>
        history[k] == SeedRecord(days[k / 5], MenuItems[k % 5], randoms[2 * k], randoms[2 * k + 1])
    {
      var d := days[14 - i];
      for j := 0 to |MenuItems|
        invariant |history| == (14 - i) * 5 + j
        invariant forall k :: 0 <= k < |history| ==>
          history[k] == SeedRecord(days[k / 5], MenuItems[k % 5], randoms[2 * k], randoms[2 * k + 1])
      {
        var n := |history|;
        var item := MenuItems[j];
        var base := 20 + Floor(randoms[2 * n] * 30.0);
        var sold := WeekdaySold(base, IsWeekend(d));
        var prepared := PreparedFor(sold, randoms[2 * n + 1]);
        var waste := prepared - sold;
        var record := DailyRecord(d.date, item.id, item.name, prepared, sold, waste,
                                  sold * item.unitPrice, waste * item.costPerUnit);
        assert record == SeedRecord(d, item, randoms[2 * n], randoms[2 * n + 1]);
        assert n / 5 == 14 - i && n % 5 == j;
        history := history + [record];
      }
      i := i - 1;
    }
  }

  /** The base demand lies in 20..49, and the weekend multiplier applies to
      Saturdays and Sundays only. */
  lemma SeedDemand(d: Day, item: MenuItem, r1: real, r2: real)
    requires IsRandom(r1)
    ensures var base := 20 + Floor(r1 * 30.0);
      20 <= base <= 49
      && SeedRecord(d, item, r1, r2).sold == (if d.weekday == 0 || d.weekday == 6 then Floor(base as real * 1.4) else base)
  {
    assert 0.0 <= r1 * 30.0 < 30.0;
  }

  /** Over-preparation of 5 to 20 percent: prepared is at least sold, so the
      waste is never negative; revenue and loss use the item's price and
      cost. */
  lemma SeedWaste(d: Day, item: MenuItem, r1: real, r2: real)
    requires IsRandom(r1) && IsRandom(r2)
    ensures var r := SeedRecord(d, item, r1, r2);
      0 <= r.sold <= r.prepared && r.waste == r.prepared - r.sold && r.waste >= 0
      && r.revenue == r.sold * item.unitPrice && r.loss == r.waste * item.costPerUnit
      && r.date == d.date && r.itemId == item.id && r.itemName == item.name
  {
    var base := 20 + Floor(r1 * 30.0);
    SeedDemand(d, item, r1, r2);
    var sold := SeedRecord(d, item, r1, r2).sold;
    assert sold >= 0;
    var f := 1.05 + r2 * 0.15;
    assert f >= 1.0;
    assert sold as real * f >= sold as real;
  }
}
