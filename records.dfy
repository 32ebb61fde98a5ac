/** The two record shapes every component shares (frontend/types.ts): a menu
    item of the static catalogue and one daily observation of one item.
    Unit counts and currency amounts are integers; every price in the
    catalogue is a whole number of rupees. */
module Records {

  datatype MenuItem = MenuItem(
    id: string,
    name: string,
    category: string,
    unitPrice: int,
    costPerUnit: int)

  datatype DailyRecord = DailyRecord(
    date: string,
    itemId: string,
    itemName: string,
    prepared: int,
    sold: int,
    waste: int,
    revenue: int,
    loss: int)

  // Field selectors, passed to the folds of module Folds.
  function Prepared(r: DailyRecord): int { r.prepared }
  function Sold(r: DailyRecord): int { r.sold }
  function Waste(r: DailyRecord): int { r.waste }
  function Revenue(r: DailyRecord): int { r.revenue }
  function Loss(r: DailyRecord): int { r.loss }
  function ItemName(r: DailyRecord): string { r.itemName }
  function DateOf(r: DailyRecord): string { r.date }

  /** What every record the application itself builds satisfies: non-negative
      counts and a waste figure between 0 and the prepared count. */
  predicate Sane(r: DailyRecord)
  {
    r.sold >= 0 && 0 <= r.waste <= r.prepared
  }

  predicate AllSane(h: seq<DailyRecord>)
  {
    forall i :: 0 <= i < |h| ==> Sane(h[i])
  }
}
