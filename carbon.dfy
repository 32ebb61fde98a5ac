/** The environmental impact card (frontend/components/CarbonTracker.tsx):
    the total waste converted to food saved, CO2 prevented, car kilometres,
    trees and water, and a guarded efficiency score. The constants are the
    exact decimals of the source. */
module Carbon {
  import opened Records
  import opened Folds
  import opened Numeric
  import App

  /** Kilograms of food per wasted unit (one meal). */
  const MealKg: real := 0.4
  /** The share of waste the predictions are assumed to avoid. */
  const ReductionShare: real := 0.35
  /** Kilograms of CO2 per kilogram of wasted food. */
  const Co2PerKg: real := 2.5
  /** Car kilometres per kilogram of CO2. */
  const KmPerKgCo2: real := 4.0
  /** Kilograms of CO2 a tree absorbs in a year. */
  const TreeKgPerYear: real := 21.0
  /** Litres of water per kilogram of food. */
  const WaterPerKg: real := 100.0

  datatype Impact = Impact(foodSavedKg: real, co2Kg: real, carKm: real, trees: real, waterLitres: real)

  /** The conversion chain from a number of wasted units; each figure is a
      fixed multiple of the waste. */
  function ImpactOf(totalWaste: int): (m: Impact)
    ensures m.foodSavedKg == totalWaste as real * 0.14
    ensures m.co2Kg == totalWaste as real * 0.35
    ensures m.carKm == totalWaste as real * 1.4
    ensures m.trees == totalWaste as real / 60.0
    ensures m.waterLitres == totalWaste as real * 14.0
  {
    var food := totalWaste as real * MealKg * ReductionShare;
    var co2 := food * Co2PerKg;
    Impact(food, co2, co2 * KmPerKgCo2, co2 / TreeKgPerYear, food * WaterPerKg)
  }

  function CarbonImpact(history: seq<DailyRecord>): Impact
  {
    ImpactOf(Sum(history, Waste))
  }

  /** No history, no impact. */
  lemma ImpactOfEmpty()
    ensures CarbonImpact([]) == Impact(0.0, 0.0, 0.0, 0.0, 0.0)
  {
  }

  /** Every figure grows with the waste. */
  lemma ImpactMonotone(w: int, w': int)
    requires w <= w'
    ensures var m, m' := ImpactOf(w), ImpactOf(w');
      m.foodSavedKg <= m'.foodSavedKg && m.co2Kg <= m'.co2Kg && m.carKm <= m'.carKm
      && m.trees <= m'.trees && m.waterLitres <= m'.waterLitres
  {
  }

  /** Sane records never give a negative figure, and more records never
      give less. */
  lemma ImpactOfMoreRecords(history: seq<DailyRecord>, more: seq<DailyRecord>)
    requires AllSane(more)
    ensures var m, m' := CarbonImpact(history), CarbonImpact(history + more);
      m.foodSavedKg <= m'.foodSavedKg && m.co2Kg <= m'.co2Kg && m.carKm <= m'.carKm
      && m.trees <= m'.trees && m.waterLitres <= m'.waterLitres
  {
    SumAppend(history, more, Waste);
    SumNonNegative(more, Waste);
    ImpactMonotone(Sum(history, Waste), Sum(history + more, Waste));
  }

  /** The impact of two histories together is the sum of their impacts. */
  lemma ImpactAdditive(h: seq<DailyRecord>, h': seq<DailyRecord>)
    ensures var m, m1, m2 := CarbonImpact(h + h'), CarbonImpact(h), CarbonImpact(h');
      m.foodSavedKg == m1.foodSavedKg + m2.foodSavedKg && m.co2Kg == m1.co2Kg + m2.co2Kg
      && m.carKm == m1.carKm + m2.carKm && m.trees == m1.trees + m2.trees
      && m.waterLitres == m1.waterLitres + m2.waterLitres
  {
    SumAppend(h, h', Waste);
  }

  /** The figures as the card shows them: tenths, and whole kilometres. */
  datatype Shown = Shown(foodSavedKg: real, co2Kg: real, carKm: int, trees: real)

  function ShownImpact(m: Impact): Shown
  {
    Shown(Fixed1(m.foodSavedKg), Fixed1(m.co2Kg), Fixed0(m.carKm), Fixed1(m.trees))
  }

  /** For non-negative waste the rounded figures still grow with it. */
  lemma ShownMonotone(w: int, w': int)
    requires 0 <= w <= w'
    ensures var s, s' := ShownImpact(ImpactOf(w)), ShownImpact(ImpactOf(w'));
      s.foodSavedKg <= s'.foodSavedKg && s.co2Kg <= s'.co2Kg && s.carKm <= s'.carKm && s.trees <= s'.trees
  {
    var m, m' := ImpactOf(w), ImpactOf(w');
    ImpactMonotone(0, w);
    ImpactMonotone(w, w');
    FixedMonotone(m.foodSavedKg, m'.foodSavedKg);
    FixedMonotone(m.co2Kg, m'.co2Kg);
    FixedMonotone(m.carKm, m'.carKm);
    FixedMonotone(m.trees, m'.trees);
  }

  /** `efficiencyScore`: the unwasted share of what was prepared, in percent
      to a tenth, and 0 when nothing was prepared. */
  function EfficiencyScore(history: seq<DailyRecord>): (score: real)
    ensures Sum(history, Prepared) <= 0 ==> score == 0.0
  {
    var prepared := Sum(history, Prepared);
    var waste := Sum(history, Waste);
    if prepared > 0 then Fixed1((prepared - waste) as real / prepared as real * 100.0) else 0.0
  }

  /** The unwasted share is the complement of the wasted share. */
  lemma ComplementShare(w: int, p: int)
    requires 0 <= w <= p && p > 0
    ensures (p - w) as real / p as real * 100.0 == 100.0 - w as real / p as real * 100.0
    ensures 0.0 <= w as real / p as real * 100.0 <= 100.0
  {
    var q := w as real / p as real;
    var r := (p - w) as real / p as real;
    assert q * p as real == w as real;
    assert r * p as real == p as real - w as real;
    assert (1.0 - q) * p as real == p as real - w as real;
    var d := r - (1.0 - q);
    assert d * p as real == 0.0;
    assert d == 0.0;
    assert q <= 1.0;
  }

  /** For sane records the score is a percentage, and whenever something
      was prepared it is the efficiency the dashboard header shows. */
  lemma EfficiencyScoreAgrees(history: seq<DailyRecord>)
    requires AllSane(history)
    ensures 0.0 <= EfficiencyScore(history) <= 100.0
    ensures Sum(history, Prepared) > 0 ==> EfficiencyScore(history) == App.GuardedStats(history).efficiency
  {
    var prepared := Sum(history, Prepared);
    var waste := Sum(history, Waste);
    SumMonotone(history, Waste, Prepared);
    SumNonNegative(history, Waste);
    if prepared > 0 {
      ComplementShare(waste, prepared);
      Fixed1Bounds(100.0 - waste as real / prepared as real * 100.0);
    }
  }
}
