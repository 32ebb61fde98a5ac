/** The records the server files for the demo account on its first start
    (backend/src/index.ts): sixty days, oldest first, each day the five
    dishes in menu order, with demand shaped by the dish, the weekday and
    one random draw per record. The clock and `Math.random` are inputs:
    today's date is a parameter, and the draws come as a sequence of reals
    in [0, 1) in the order the loops make them. */
module Seed {
  import opened Wrappers
  import opened Calendar
  import opened Records
  import opened Numeric
  import opened Constants

  /** The server's own copy of the menu: no categories. */
  datatype SeedItem = SeedItem(id: string, name: string, unitPrice: int, costPerUnit: int)

  const SeedMenu: seq<SeedItem> := [
    SeedItem("1", "Signature Burger", 15, 6),
    SeedItem("2", "Quinoa Salad", 12, 4),
    SeedItem("3", "Truffle Pasta", 22, 9),
    SeedItem("4", "Grilled Salmon", 25, 12),
    SeedItem("5", "Avocado Toast", 14, 5)
  ]

  /** The server's menu agrees with the catalogue the browser shows, dish by
      dish, in everything but the category. */
  lemma SeedMenuMatchesCatalogue()
    ensures |SeedMenu| == |MenuItems|
    ensures forall i :: 0 <= i < |SeedMenu| ==>
      SeedMenu[i].id == MenuItems[i].id && SeedMenu[i].name == MenuItems[i].name
      && SeedMenu[i].unitPrice == MenuItems[i].unitPrice && SeedMenu[i].costPerUnit == MenuItems[i].costPerUnit
  {
  }

  /** The `switch` on the dish id. */
  function BaseDemand(id: string): (base: int)
    ensures 12 <= base <= 35
  {
    match id
    case "1" => 35
    case "2" => 18
    case "3" => 12
    case "4" => 15
    case "5" => 22
    case _ => 20
  }

  /** The three `if`s on the weekday, each overriding the one before. */
  function DayMultiplier(weekday: int): real
  {
    var m := 1.0;
    var m := if weekday == 0 || weekday == 6 then 1.5 else m;
    var m := if weekday == 5 then 1.4 else m;
    if weekday == 1 then 0.8 else m
  }

  /** The weekday rules never clash: weekends 1.5, Fridays 1.4, Mondays 0.8,
      other days 1.0. */
  lemma DayMultiplierCases(weekday: int)
    ensures DayMultiplier(weekday) ==
      if weekday == 0 || weekday == 6 then 1.5
      else if weekday == 5 then 1.4
      else if weekday == 1 then 0.8
      else 1.0
    ensures 0.8 <= DayMultiplier(weekday) <= 1.5
  {
  }

  /** The three `if`s on the dish id. */
  function WasteMultiplier(id: string): real
  {
    var w := 1.08;
    var w := if id == "5" then 1.12 else w;
    var w := if id == "2" then 1.15 else w;
    if id == "4" then 1.05 else w
  }

  /** Salad 15 percent over, toast 12, salmon 5, every other dish 8. */
  lemma WasteMultiplierCases(id: string)
    ensures WasteMultiplier(id) == if id == "2" then 1.15 else if id == "5" then 1.12 else if id == "4" then 1.05 else 1.08
    ensures 1.05 <= WasteMultiplier(id) <= 1.15
  {
  }

  /** `Math.floor(baseDemand * multiplier * randomFactor)` */
  function Sold(baseDemand: int, multiplier: real, randomFactor: real): (sold: int)
    ensures sold as real <= baseDemand as real * multiplier * randomFactor < sold as real + 1.0
  {
    Floor(baseDemand as real * multiplier * randomFactor)
  }

  /** `Math.ceil(sold * wasteMultiplier)` */
  function Prepared(sold: int, wasteMultiplier: real): (prepared: int)
    ensures prepared as real - 1.0 < sold as real * wasteMultiplier <= prepared as real
  {
    Ceil(sold as real * wasteMultiplier)
  }

  /** What a dish sells on a day, from the day's random draw. */
  function DemoSold(d: Day, item: SeedItem, random: real): int
  {
    Sold(BaseDemand(item.id), DayMultiplier(d.weekday), 0.8 + random * 0.4)
  }

  /** The record of a dish that sold `sold` units on a day. */
  function RecordFor(d: Day, item: SeedItem, sold: int): DailyRecord
  {
    var prepared := Prepared(sold, WasteMultiplier(item.id));
    var waste := prepared - sold;
    DailyRecord(d.date, item.id, item.name, prepared, sold, waste, sold * item.unitPrice, waste * item.costPerUnit)
  }

  /** The record for one dish on one day from one random draw. */
  function DemoRecord(d: Day, item: SeedItem, random: real): DailyRecord
  {
    RecordFor(d, item, DemoSold(d, item, random))
  }

  const SeedDays := 60

  /** `generateHistory`: for i from 59 down to 0, the day i days ago, then
      the five dishes. */
  method GenerateSeed(today: Date, randoms: seq<real>) returns (history: seq<DailyRecord>)
    requires ValidDate(today) && DayNumber(today) >= SeedDays - 1 && |randoms| == SeedDays * |SeedMenu|
    ensures |history| == SeedDays * |SeedMenu|
    ensures forall k :: 0 <= k < |history| ==> history[k] == DemoRecord(DaysFrom(today, SeedDays - 1, SeedDays)[k / 5], SeedMenu[k % 5], randoms[k])
  {
    history := BuildSeed(DaysFrom(today, SeedDays - 1, SeedDays), randoms);
  }

  /** The seeding loop over its sixty days, oldest first. */
  method BuildSeed(days: seq<Day>, randoms: seq<real>) returns (history: seq<DailyRecord>)
    requires |days| == SeedDays && |randoms| == SeedDays * |SeedMenu|
    ensures |history| == SeedDays * |SeedMenu|
    ensures forall k :: 0 <= k < |history| ==> history[k] == DemoRecord(days[k / 5], SeedMenu[k % 5], randoms[k])
  {
    history := [];
    var i := 59;
    while i >= 0
      invariant -1 <= i <= 59
      invariant |history| == (59 - i) * 5
      invariant forall k :: 0 <= k < |history| ==> history[k] == DemoRecord(days[k / 5], SeedMenu[k % 5], randoms[k])
    {
      var d := days[59 - i];
      for j := 0 to |SeedMenu|
        invariant |history| == (59 - i) * 5 + j
        invariant forall k :: 0 <= k < |history| ==> history[k] == DemoRecord(days[k / 5], SeedMenu[k % 5], randoms[k])
      {
        var n := |history|;
        var item := SeedMenu[j];
        var randomFactor := 0.8 + randoms[n] * 0.4;
        var sold := Sold(BaseDemand(item.id), DayMultiplier(d.weekday), randomFactor);
        var prepared := Prepared(sold, WasteMultiplier(item.id));
        var waste := prepared - sold;
        var record := DailyRecord(d.date, item.id, item.name, prepared, sold, waste,
                                  sold * item.unitPrice, waste * item.costPerUnit);
        assert record == DemoRecord(d, item, randoms[n]);
        assert n / 5 == 59 - i && n % 5 == j;
        history := history + [record];
      }
      i := i - 1;
    }
  }

  /** Sold lies between 80 and 120 percent of the dish's demand for the
      weekday, rounded down. */
  lemma SeedSoldBounds(d: Day, item: SeedItem, random: real)
    requires IsRandom(random)
    ensures var demand := BaseDemand(item.id) as real * DayMultiplier(d.weekday);
      var sold := DemoSold(d, item, random);
      demand * 0.8 - 1.0 < sold as real <= demand * 1.2
      && 0 <= sold <= 63
  {
    DemandAtMost(item.id, d.weekday);
    var demand := BaseDemand(item.id) as real * DayMultiplier(d.weekday);
    var rf := 0.8 + random * 0.4;
    ProductBetween(demand, rf);
    SoldWithin(demand, demand * rf, DemoSold(d, item, random));
  }

  /** No dish's demand on any weekday exceeds the burger's weekend 52.5. */
  lemma DemandAtMost(id: string, weekday: int)
    ensures 0.0 <= BaseDemand(id) as real * DayMultiplier(weekday) <= 52.5
  {
    DayMultiplierCases(weekday);
    var base, m := BaseDemand(id) as real, DayMultiplier(weekday);
    MulMonotone(base, m, 1.5);
    MulMonotone(1.5, base, 35.0);
    assert 1.5 * base == base * 1.5;
  }

  /** The floor of a product between 0.8 and 1.2 times a demand of at most
      52.5. */
  lemma SoldWithin(demand: real, product: real, sold: int)
    requires 0.0 <= demand <= 52.5 && demand * 0.8 <= product <= demand * 1.2
    requires sold as real <= product < sold as real + 1.0
    ensures demand * 0.8 - 1.0 < sold as real
    ensures sold as real <= demand * 1.2
    ensures 0 <= sold <= 63
  {
  }

  lemma ProductBetween(demand: real, rf: real)
    requires 0.0 <= demand && 0.8 <= rf <= 1.2
    ensures demand * 0.8 <= demand * rf <= demand * 1.2
  {
    MulMonotone(demand, 0.8, rf);
    MulMonotone(demand, rf, 1.2);
  }

  /** Prepared is sold plus 5 to 15 percent, rounded up: waste never
      negative, less than that share plus one unit, at least one unit
      whenever anything sold; revenue and loss are priced from the dish. */
  lemma RecordForBounds(d: Day, item: SeedItem, sold: int)
    requires sold >= 0
    ensures var r := RecordFor(d, item, sold);
      r.sold == sold && sold <= r.prepared && r.waste == r.prepared - r.sold
      && (r.sold > 0 ==> r.waste >= 1)
      && r.waste as real < r.sold as real * (WasteMultiplier(item.id) - 1.0) + 1.0
      && r.revenue == r.sold * item.unitPrice && r.loss == r.waste * item.costPerUnit
      && r.date == d.date && r.itemId == item.id && r.itemName == item.name
  {
    WasteMultiplierCases(item.id);
    var wm := WasteMultiplier(item.id);
    MulMonotone(sold as real, 1.0, wm);
    assert sold as real * wm >= sold as real;
    assert sold > 0 ==> sold as real * wm > sold as real;
    assert sold as real * (wm - 1.0) == sold as real * wm - sold as real;
  }

  /** The generated record of a draw in [0, 1) is sane. */
  lemma SeedWasteBounds(d: Day, item: SeedItem, random: real)
    requires IsRandom(random)
    ensures var r := DemoRecord(d, item, random);
      0 <= r.sold <= r.prepared && r.waste == r.prepared - r.sold && r.sold <= 63
      && (r.sold > 0 ==> r.waste >= 1)
  {
    SeedSoldBounds(d, item, random);
    RecordForBounds(d, item, DemoSold(d, item, random));
  }

  /** Every generated record is sane. */
  lemma SeedHistorySane(days: seq<Day>, randoms: seq<real>, history: seq<DailyRecord>)
    requires |days| == SeedDays && |randoms| == SeedDays * |SeedMenu|
    requires forall k :: 0 <= k < |randoms| ==> IsRandom(randoms[k])
    requires |history| == SeedDays * |SeedMenu|
    requires forall k :: 0 <= k < |history| ==> history[k] == DemoRecord(days[k / 5], SeedMenu[k % 5], randoms[k])
    ensures AllSane(history)
  {
    forall k | 0 <= k < |history|
      ensures Sane(history[k])
    {
      SeedWasteBounds(days[k / 5], SeedMenu[k % 5], randoms[k]);
    }
  }
}
