/** The what-if simulator (frontend/components/WhatIfSimulator.tsx): the
    average demand and waste of each menu item over the history, scaled by
    a scenario multiplier, with a 5% preparation buffer, and the totals over
    all items. */
module WhatIf {
  import opened Wrappers
  import opened Records
  import opened Folds
  import opened Grouping
  import opened Numeric

  datatype Scenario = Scenario(id: string, title: string, description: string, multiplier: real)

  /** The scenario table. */
  const Scenarios: seq<Scenario> := [
    Scenario("normal", "Normal Day", "Regular weekday traffic", 1.0),
    Scenario("weekend", "Weekend Rush", "+40% customer traffic", 1.4),
    Scenario("holiday", "Holiday Special", "+60% demand spike", 1.6),
    Scenario("rainy", "Rainy Day", "-20% footfall, +comfort food", 0.85),
    Scenario("event", "Nearby Event", "+80% surge expected", 1.8),
    Scenario("slow", "Slow Monday", "-25% expected traffic", 0.75)
  ]

  function HasId(id: string): Scenario -> bool
  {
    (s: Scenario) => s.id == id
  }

  /** `SCENARIOS.find(s => s.id === id)` */
  function FindScenario(id: string): Option<Scenario>
  {
    Find(Scenarios, HasId(id))
  }

  /** The factor of each scenario id, written out case by case. */
  function ScenarioFactor(id: string): real
  {
    if id == "normal" then 1.0
    else if id == "weekend" then 1.4
    else if id == "holiday" then 1.6
    else if id == "rainy" then 0.85
    else if id == "event" then 1.8
    else if id == "slow" then 0.75
    else 1.0
  }

  /** `useCustom ? customMultiplier / 100 : (scenario?.multiplier || 1.0)` */
  function Multiplier(selected: string, useCustom: bool, custom: int): real
  {
    if useCustom then custom as real / 100.0
    else match FindScenario(selected)
      case Some(s) => if s.multiplier != 0.0 then s.multiplier else 1.0
      case None => 1.0
  }

  /** The custom percentage wins when it is switched on; otherwise the
      selected scenario's factor, and 1.0 for an id not in the table. */
  lemma MultiplierChoice(selected: string, useCustom: bool, custom: int)
    ensures useCustom ==> Multiplier(selected, useCustom, custom) == custom as real / 100.0
    ensures !useCustom ==> Multiplier(selected, useCustom, custom) == ScenarioFactor(selected)
  {
    if !useCustom {
      ScenarioLookup(selected);
    }
  }

  /** The table lookup by id: the six ids find their own rows, any other
      id finds nothing. */
  lemma ScenarioLookup(id: string)
    ensures FindScenario(id).Some? ==> FindScenario(id).value.id == id && FindScenario(id).value.multiplier == ScenarioFactor(id)
    ensures FindScenario(id).None? ==> ScenarioFactor(id) == 1.0
  {
    if k :| 0 <= k < |Scenarios| && Scenarios[k].id == id {
      FindsRow(id, k);
      FactorTable(k);
    } else {
      FindsNothing(id);
      assert id !in {"normal", "weekend", "holiday", "rainy", "event", "slow"} by {
        assert Scenarios[0].id != id && Scenarios[1].id != id && Scenarios[2].id != id;
        assert Scenarios[3].id != id && Scenarios[4].id != id && Scenarios[5].id != id;
      }
    }
  }

  /** Each row's factor is the one the case list gives its id. */
  lemma FactorTable(k: int)
    requires 0 <= k < |Scenarios|
    ensures ScenarioFactor(Scenarios[k].id) == Scenarios[k].multiplier
  {
  }

  lemma FindsNothing(id: string)
    requires forall k :: 0 <= k < |Scenarios| ==> Scenarios[k].id != id
    ensures FindScenario(id) == None
  {
  }

  lemma FindsRow(id: string, k: int)
    requires 0 <= k < |Scenarios| && Scenarios[k].id == id
    ensures FindScenario(id) == Some(Scenarios[k])
  {
    forall j | 0 <= j < k
      ensures !HasId(id)(Scenarios[j])
    {
      assert Scenarios[j].id != Scenarios[k].id;
    }
    FindFirst(Scenarios, HasId(id), k);
  }

  /** No row is titled "Custom", and none has an empty title. */
  lemma ScenarioTitles(id: string)
    ensures FindScenario(id).Some? ==> FindScenario(id).value.title != "Custom" && FindScenario(id).value.title != ""
  {
    if FindScenario(id).Some? {
      var i :| 0 <= i < |Scenarios| && Scenarios[i] == FindScenario(id).value;
      assert i == 0 || i == 1 || i == 2 || i == 3 || i == 4 || i == 5;
    }
  }

  /** With the slider inside its 50..200 range, the multiplier lies in
      [0.5, 2.0] whatever is selected. */
  lemma MultiplierRange(selected: string, useCustom: bool, custom: int)
    requires 50 <= custom <= 200
    ensures 0.5 <= Multiplier(selected, useCustom, custom) <= 2.0
  {
    MultiplierChoice(selected, useCustom, custom);
    FactorRange(selected);
  }

  /** Every scenario factor lies between 0.75 and 1.8. */
  lemma FactorRange(id: string)
    ensures 0.75 <= ScenarioFactor(id) <= 1.8
  {
  }

  /** The running sums kept per item name (`avgSold`, `avgWaste` and `count`
      hold sums until the division). */
  datatype ItemTotals = ItemTotals(sold: int, waste: int, count: int)

  const NoRecords := ItemTotals(0, 0, 0)

  /** What an item without records is given. */
  const Fallback := ItemTotals(20, 3, 1)

  function AddToTotals(t: ItemTotals, r: DailyRecord): ItemTotals
  {
    ItemTotals(t.sold + r.sold, t.waste + r.waste, t.count + 1)
  }

  function TotalSold(t: ItemTotals): int { t.sold }
  function TotalWaste(t: ItemTotals): int { t.waste }
  function TotalCount(t: ItemTotals): int { t.count }
  function One(r: DailyRecord): int { 1 }

  /** `itemAverages` after the `forEach` over the history. */
  function ItemAverages(history: seq<DailyRecord>): Table<string, ItemTotals>
  {
    Group(history, ItemName, NoRecords, AddToTotals)
  }

  /** The records of the item with this exact name. */
  function NamedRecords(history: seq<DailyRecord>, name: string): seq<DailyRecord>
  {
    Where(history, KeyIs(ItemName, name))
  }

  /** The `forEach` loop that fills `itemAverages`. */
  method AccumulateItemAverages(history: seq<DailyRecord>) returns (averages: Table<string, ItemTotals>)
    ensures averages == ItemAverages(history)
  {
    var keys: seq<string> := [];
    var values: map<string, ItemTotals> := map[];
    for i := 0 to |history|
      invariant Table(keys, values) == Group(history[..i], ItemName, NoRecords, AddToTotals)
    {
      var r := history[i];
      if r.itemName !in values {
        keys := keys + [r.itemName];
        values := values[r.itemName := NoRecords];
      }
      var t := values[r.itemName];
      values := values[r.itemName := ItemTotals(t.sold + r.sold, t.waste + r.waste, t.count + 1)];
      assert history[..i + 1][..i] == history[..i];
    }
    assert history[..|history|] == history;
    averages := Table(keys, values);
  }

  datatype BasePrediction = BasePrediction(
    id: string,
    name: string,
    baseDemand: int,
    baseWaste: int,
    unitPrice: int,
    costPerUnit: int)

  /** `Math.round(total / Math.max(1, count))` */
  function AverageOf(total: int, count: int): int
  {
    Round(total as real / (if count >= 1 then count else 1) as real)
  }

  function PredictionFor(averages: Table<string, ItemTotals>, item: MenuItem): BasePrediction
  {
    var stats := if item.name in averages.values then averages.values[item.name] else Fallback;
    BasePrediction(item.id, item.name, AverageOf(stats.sold, stats.count), AverageOf(stats.waste, stats.count),
                   item.unitPrice, item.costPerUnit)
  }

  /** `basePredictions` */
  function BasePredictions(history: seq<DailyRecord>, menu: seq<MenuItem>): seq<BasePrediction>
  {
    var averages := ItemAverages(history);
    seq(|menu|, i requires 0 <= i < |menu| => PredictionFor(averages, menu[i]))
  }

  /** The `useMemo` that computes `basePredictions`. */
  method ComputeBasePredictions(history: seq<DailyRecord>, menu: seq<MenuItem>) returns (ps: seq<BasePrediction>)
    ensures ps == BasePredictions(history, menu)
  {
    var averages := AccumulateItemAverages(history);
    ps := seq(|menu|, i requires 0 <= i < |menu| => PredictionFor(averages, menu[i]));
  }

  /** One prediction per menu item, in menu order, carrying the item's id,
      name, price and cost. */
  lemma BasePredictionsFollowMenu(history: seq<DailyRecord>, menu: seq<MenuItem>)
    ensures |BasePredictions(history, menu)| == |menu|
    ensures forall i :: 0 <= i < |menu| ==>
      var p := BasePredictions(history, menu)[i];
      p.id == menu[i].id && p.name == menu[i].name
      && p.unitPrice == menu[i].unitPrice && p.costPerUnit == menu[i].costPerUnit
  {
  }

  /** The totals kept for a name are the sums over the records with that
      exact name, and their number. */
  lemma ItemTotalsAreSums(history: seq<DailyRecord>, name: string)
    ensures var t := Lookup(ItemAverages(history), name, NoRecords);
      var named := NamedRecords(history, name);
      t.sold == Sum(named, Sold) && t.waste == Sum(named, Waste) && t.count == |named|
    ensures name in ItemAverages(history).values <==> NamedRecords(history, name) != []
  {
    ItemTotalsFold(history, name);
    ItemNamePresent(history, name);
  }

  lemma ItemTotalsFold(history: seq<DailyRecord>, name: string)
    ensures var t := Lookup(ItemAverages(history), name, NoRecords);
      var named := NamedRecords(history, name);
      t.sold == Sum(named, Sold) && t.waste == Sum(named, Waste) && t.count == |named|
  {
    var named := NamedRecords(history, name);
    GroupValue(history, ItemName, NoRecords, AddToTotals, name);
    FoldComponent(named, NoRecords, AddToTotals, TotalSold, Sold);
    FoldComponent(named, NoRecords, AddToTotals, TotalWaste, Waste);
    FoldComponent(named, NoRecords, AddToTotals, TotalCount, One);
    SumOfOnes(named, One);
  }

  lemma ItemNamePresent(history: seq<DailyRecord>, name: string)
    ensures name in ItemAverages(history).values <==> NamedRecords(history, name) != []
  {
    var named := NamedRecords(history, name);
    GroupKeys(history, ItemName, NoRecords, AddToTotals);
    WhereMembers(history, KeyIs(ItemName, name));
    if named != [] {
      assert named[0] in named;
    }
    if name in ItemAverages(history).values {
      var i :| 0 <= i < |history| && ItemName(history[i]) == name;
      assert history[i] in named;
    }
  }

  /** `baseDemand` and `baseWaste` are the rounded averages of `sold` and
      `waste` over the records carrying the item's exact name; an item with
      no records gets 20 and 3. */
  lemma BaseDemandIsAverage(history: seq<DailyRecord>, menu: seq<MenuItem>, i: int)
    requires 0 <= i < |menu|
    ensures var p := BasePredictions(history, menu)[i];
      var named := NamedRecords(history, menu[i].name);
      if named == [] then p.baseDemand == 20 && p.baseWaste == 3
      else (p.baseDemand == Round(Sum(named, Sold) as real / |named| as real)
        && p.baseWaste == Round(Sum(named, Waste) as real / |named| as real))
  {
    ItemTotalsAreSums(history, menu[i].name);
    assert Round(20 as real / 1 as real) == 20 && Round(3 as real / 1 as real) == 3;
  }

  /** One row of `adjustedPredictions`. `change` is None where the source
      divides by a zero `baseDemand` (and shows `NaN`). */
  datatype Projection = Projection(
    item: BasePrediction,
    adjustedDemand: int,
    suggestedPrep: int,
    expectedWaste: int,
    revenue: int,
    wasteCost: int,
    change: Option<int>)

  function Project(p: BasePrediction, m: real): Projection
  {
    var adjusted := Round(p.baseDemand as real * m);
    var prep := Round(adjusted as real * 1.05);
    var waste := prep - adjusted;
    Projection(p, adjusted, prep, waste, adjusted * p.unitPrice, waste * p.costPerUnit,
      if p.baseDemand == 0 then None
      else Some(Fixed0((adjusted - p.baseDemand) as real / p.baseDemand as real * 100.0)))
  }

  /** `adjustedPredictions` */
  function AdjustedPredictions(bases: seq<BasePrediction>, m: real): (r: seq<Projection>)
    ensures |r| == |bases|
    ensures forall i :: 0 <= i < |bases| ==> r[i] == Project(bases[i], m)
  {
    seq(|bases|, i requires 0 <= i < |bases| => Project(bases[i], m))
  }

  /** The buffer is 5% of the adjusted demand, rounded: never negative for a
      non-negative demand, and never more than the demand itself (plus the
      half that rounding may add). */
  lemma PrepBuffer(p: BasePrediction, m: real)
    ensures var r := Project(p, m);
      r.expectedWaste == Round(r.adjustedDemand as real * 0.05)
      && r.suggestedPrep == r.adjustedDemand + r.expectedWaste
    ensures var r := Project(p, m);
      r.adjustedDemand >= 0 ==> 0 <= r.expectedWaste <= r.adjustedDemand && r.suggestedPrep >= r.adjustedDemand
  {
    var a := Project(p, m).adjustedDemand;
    RoundShift(a, a as real * 0.05);
    assert a as real * 1.05 == a as real + a as real * 0.05;
    if a >= 0 {
      RoundMonotone(0.0, a as real * 0.05);
      RoundMonotone(a as real * 0.05, a as real);
      RoundOfInteger(a);
    }
  }

  /** The revenue and the waste cost use the item's own price and cost. */
  lemma ProjectionAmounts(p: BasePrediction, m: real)
    ensures var r := Project(p, m);
      r.revenue == r.adjustedDemand * p.unitPrice && r.wasteCost == r.expectedWaste * p.costPerUnit
      && r.item == p
  {
  }

  /** The neutral multiplier leaves the demand as it is and reports no change. */
  lemma NeutralMultiplier(p: BasePrediction)
    ensures Project(p, 1.0).adjustedDemand == p.baseDemand
    ensures Project(p, 1.0).change == if p.baseDemand == 0 then None else Some(0)
  {
    RoundOfInteger(p.baseDemand);
  }

  /** A larger multiplier never lowers a non-negative demand. */
  lemma DemandMonotone(p: BasePrediction, m1: real, m2: real)
    requires p.baseDemand >= 0 && m1 <= m2
    ensures Project(p, m1).adjustedDemand <= Project(p, m2).adjustedDemand
  {
    assert p.baseDemand as real * m1 <= p.baseDemand as real * m2;
    RoundMonotone(p.baseDemand as real * m1, p.baseDemand as real * m2);
  }

  datatype Totals = Totals(demand: int, prep: int, revenue: int, wasteCost: int)

  function Demand(r: Projection): int { r.adjustedDemand }
  function Prep(r: Projection): int { r.suggestedPrep }
  function ExpectedWaste(r: Projection): int { r.expectedWaste }
  function ProjectedRevenue(r: Projection): int { r.revenue }
  function WasteCost(r: Projection): int { r.wasteCost }

  /** `totals`: four plain sums over the rows. */
  function TotalsOf(rows: seq<Projection>): Totals
  {
    Totals(Sum(rows, Demand), Sum(rows, Prep), Sum(rows, ProjectedRevenue), Sum(rows, WasteCost))
  }

  /** The total preparation is the total demand plus the summed buffers, so
      it covers the demand whenever no item's demand is negative. */
  lemma TotalPrepCoversDemand(bases: seq<BasePrediction>, m: real)
    ensures var rows := AdjustedPredictions(bases, m);
      TotalsOf(rows).prep == TotalsOf(rows).demand + Sum(rows, ExpectedWaste)
    ensures var rows := AdjustedPredictions(bases, m);
      (forall i :: 0 <= i < |rows| ==> rows[i].adjustedDemand >= 0) ==> TotalsOf(rows).prep >= TotalsOf(rows).demand
  {
    var rows := AdjustedPredictions(bases, m);
    forall i | 0 <= i < |rows|
      ensures Prep(rows[i]) == Demand(rows[i]) + ExpectedWaste(rows[i])
      ensures rows[i].adjustedDemand >= 0 ==> ExpectedWaste(rows[i]) >= 0
    {
      PrepBuffer(bases[i], m);
    }
    SumLinear(rows, Demand, ExpectedWaste, Prep);
    if forall i :: 0 <= i < |rows| ==> rows[i].adjustedDemand >= 0 {
      SumNonNegative(rows, ExpectedWaste);
    }
  }

  /** The simulator's own state and the handlers that change it. */
  class Simulator {
    var selectedScenario: string
    var customMultiplier: int
    var useCustom: bool

    /** The slider keeps the custom percentage in 50..200. */
    predicate Valid()
      reads this
    {
      50 <= customMultiplier <= 200
    }

    constructor()
      ensures selectedScenario == "normal" && customMultiplier == 100 && !useCustom
      ensures Valid()
    {
      selectedScenario := "normal";
      customMultiplier := 100;
      useCustom := false;
    }

    /** The reset button. */
    method Reset()
      modifies this
      ensures selectedScenario == "normal" && customMultiplier == 100 && !useCustom
      ensures Valid()
    {
      selectedScenario := "normal";
      useCustom := false;
      customMultiplier := 100;
    }

    /** A scenario button: selects it and switches the custom value off. */
    method ChooseScenario(id: string)
      requires Valid()
      modifies this
      ensures selectedScenario == id && !useCustom && customMultiplier == old(customMultiplier)
      ensures Valid()
    {
      selectedScenario := id;
      useCustom := false;
    }

    /** The checkbox. */
    method SetUseCustom(checked: bool)
      requires Valid()
      modifies this
      ensures useCustom == checked
      ensures selectedScenario == old(selectedScenario) && customMultiplier == old(customMultiplier)
      ensures Valid()
    {
      useCustom := checked;
    }

    /** Moving the range input, whose bounds are 50 and 200: sets the value
        and switches the custom multiplier on. */
    method Slide(value: int)
      requires Valid() && 50 <= value <= 200
      modifies this
      ensures customMultiplier == value && useCustom && selectedScenario == old(selectedScenario)
      ensures Valid()
    {
      customMultiplier := value;
      useCustom := true;
    }

    /** The multiplier the table is computed with. */
    function CurrentMultiplier(): (m: real)
      reads this
      requires Valid()
      ensures 0.5 <= m <= 2.0
    {
      MultiplierRange(selectedScenario, useCustom, customMultiplier);
      Multiplier(selectedScenario, useCustom, customMultiplier)
    }

    /** The insight heading: the selected scenario's title, even while the
        custom value is in use, and "Custom" exactly when the id is not in
        the table (every title is non-empty, so `||` never falls through). */
    function InsightTitle(): (title: string)
      reads this
      ensures FindScenario(selectedScenario).None? <==> title == "Custom"
      ensures FindScenario(selectedScenario).Some? ==> title == FindScenario(selectedScenario).value.title
    {
      ScenarioTitles(selectedScenario);
      match FindScenario(selectedScenario)
      case Some(s) => s.title
      case None => "Custom"
    }
  }
}
