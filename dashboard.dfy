/**
 * The dashboard (src/components/pages/Dashboard.jsx), integer figures only: the
 * stat counts, the ten latest movements, the five low-stock alerts, and the
 * product label and sign shown for each movement.
 */
module Dashboard {
  import opened Records
  import Seqs
  import StatusBadge
  import Reports
  import Products

  /** `movementsData.slice(0, 10)`: the first ten movements in the order the service returns them. */
  function LatestMovements(movementsData: seq<Movement>): (r: seq<Movement>)
    ensures |r| <= 10 && |r| <= |movementsData|
    ensures r == movementsData[..|r|]
    ensures |movementsData| >= 10 ==> |r| == 10
  {
    Seqs.Take(movementsData, 10)
  }

  predicate IsLowStock(p: Product) {
    p.quantity <= p.reorderPoint && p.quantity > 0
  }

  predicate IsOutOfStock(p: Product) {
    p.quantity == 0
  }

  /** The three counting stat cards (the "Total Value" card is a money figure). */
  datatype Stats = Stats(totalProducts: nat, lowStockItems: nat, outOfStockItems: nat)

  function StatCards(products: seq<Product>): (r: Stats)
    ensures r.totalProducts == |products|
    ensures r.lowStockItems <= r.totalProducts && r.outOfStockItems <= r.totalProducts
    ensures r.lowStockItems + r.outOfStockItems <= r.totalProducts
  {
    Seqs.DisjointFilterCounts(products, IsLowStock, IsOutOfStock);
    Stats(|products|, |Seqs.Filter(products, IsLowStock)|, |Seqs.Filter(products, IsOutOfStock)|)
  }

  /** `lowStockItems.slice(0, 5)`: at most five alerts, the first ones of the low-stock list. */
  function LowStockAlerts(products: seq<Product>): (r: seq<Product>)
    ensures |r| <= 5 && |r| <= |Seqs.Filter(products, IsLowStock)|
    ensures r == Seqs.Filter(products, IsLowStock)[..|r|]
    ensures forall i :: 0 <= i < |r| ==> r[i] in products && IsLowStock(r[i])
  {
    Seqs.Take(Seqs.Filter(products, IsLowStock), 5)
  }

  /** `products.find(p => p.Id === movement.productId)?.Name || 'Unknown Product'`. */
  function ProductLabel(products: seq<Product>, productId: int): string {
    match Seqs.Find(products, (p: Product) => p.id == productId)
    case Some(p) => if p.name != "" then p.name else "Unknown Product"
    case None => "Unknown Product"
  }

  /** A movement whose product is not loaded is labelled 'Unknown Product'. */
  lemma MissingProductIsUnknown(products: seq<Product>, productId: int)
    requires forall j :: 0 <= j < |products| ==> products[j].id != productId
    ensures ProductLabel(products, productId) == "Unknown Product"
  {
  }

  /** `movement.type === 'IN' ? '+' : '-'`: a plus sign for IN and a minus sign for every other type. */
  function QuantitySign(kind: string): (sign: string)
    ensures sign == "+" <==> kind == IN
    ensures sign == "-" <==> kind != IN
  {
    if kind == IN then "+" else "-"
  }

  /**
   * The low-stock and out-of-stock rules are written out four times (the badge,
   * the products page's status filter, the reports page and this page). The two
   * page copies and the status filter are the same predicate, and for
   * non-negative quantities and reorder points all four agree with the badge.
   */
  lemma StockRulesAgree(p: Product, category: string)
    ensures IsLowStock(p) == Reports.IsLowStock(p) == Products.MatchesStatus(Products.ProductRow(p, category), "low-stock")
    ensures IsOutOfStock(p) == Reports.IsOutOfStock(p) == Products.MatchesStatus(Products.ProductRow(p, category), "out-of-stock")
    ensures p.quantity >= 0 && p.reorderPoint >= 0 ==>
      && (IsLowStock(p) <==> StatusBadge.GetStatus(p.quantity, p.reorderPoint) == StatusBadge.LowStockBadge)
      && (IsOutOfStock(p) <==> StatusBadge.GetStatus(p.quantity, p.reorderPoint) == StatusBadge.OutOfStockBadge)
  {
  }

  /** The dashboard and the reports page report the same low-stock and out-of-stock counts. */
  lemma CountsMatchReports(products: seq<Product>)
    ensures StatCards(products).lowStockItems == Reports.Summary(products).lowStockItems
    ensures StatCards(products).outOfStockItems == Reports.Summary(products).outOfStockItems
  {
    Seqs.FilterExtensional(products, IsLowStock, Reports.IsLowStock);
    Seqs.FilterExtensional(products, IsOutOfStock, Reports.IsOutOfStock);
  }
}
