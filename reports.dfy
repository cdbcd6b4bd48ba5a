/**
 * The reports page (src/components/pages/Reports.jsx), integer figures only:
 * the inventory summary, the stock activity of the last seven days and the
 * per-category breakdown. The seven-day cutoff comes from the clock and is
 * passed in.
 */
module Reports {
  import opened Records
  import Seqs

  predicate IsLowStock(p: Product) {
    p.quantity <= p.reorderPoint && p.quantity > 0
  }

  predicate IsOutOfStock(p: Product) {
    p.quantity == 0
  }

  /** `lowStockItems`. */
  function LowStockItems(products: seq<Product>): seq<Product> {
    Seqs.Filter(products, IsLowStock)
  }

  /** `outOfStockItems`. */
  function OutOfStockItems(products: seq<Product>): seq<Product> {
    Seqs.Filter(products, IsOutOfStock)
  }

  /** The "Inventory Summary" card without its money figure. */
  datatype InventorySummary = InventorySummary(totalProducts: nat, lowStockItems: nat, outOfStockItems: nat)

  function Summary(products: seq<Product>): (r: InventorySummary)
    ensures r.totalProducts == |products|
    ensures r.lowStockItems + r.outOfStockItems <= r.totalProducts
  {
    Seqs.DisjointFilterCounts(products, IsLowStock, IsOutOfStock);
    InventorySummary(|products|, |LowStockItems(products)|, |OutOfStockItems(products)|)
  }

  /** No product is listed both as low stock and as out of stock. */
  lemma LowAndOutOfStockAreDisjoint(products: seq<Product>)
    ensures forall i :: 0 <= i < |LowStockItems(products)| ==> LowStockItems(products)[i] !in OutOfStockItems(products)
  {
  }

  /** `recentMovements`: the movements at or after the cutoff. */
  function RecentMovements(movements: seq<Movement>, sevenDaysAgo: int): seq<Movement> {
    Seqs.Filter(movements, (m: Movement) => m.timestamp >= sevenDaysAgo)
  }

  function Quantity(m: Movement): int {
    m.quantity
  }

  /** The sum of the quantities of the recent movements of one type. */
  function RecentTotal(movements: seq<Movement>, sevenDaysAgo: int, kind: string): int {
    Seqs.SumOf(Seqs.Filter(RecentMovements(movements, sevenDaysAgo), (m: Movement) => m.kind == kind), Quantity)
  }

  /** The "Stock Activity (7 Days)" card. */
  datatype StockActivity = StockActivity(stockReceived: int, stockIssued: int, netChange: int, totalTransactions: nat)

  function Activity(movements: seq<Movement>, sevenDaysAgo: int): (r: StockActivity)
    ensures r.netChange == r.stockReceived - r.stockIssued
    ensures r.totalTransactions <= |movements|
  {
    var stockIn := RecentTotal(movements, sevenDaysAgo, IN);
    var stockOut := RecentTotal(movements, sevenDaysAgo, OUT);
    StockActivity(stockIn, stockOut, stockIn - stockOut, |RecentMovements(movements, sevenDaysAgo)|)
  }

  /** Recent movements are exactly those at or after the cutoff, in their fetched order. */
  lemma RecentMeansAtOrAfterCutoff(movements: seq<Movement>, sevenDaysAgo: int)
    ensures Seqs.IsSubsequence(RecentMovements(movements, sevenDaysAgo), movements)
    ensures forall i :: 0 <= i < |movements| && movements[i].timestamp >= sevenDaysAgo ==>
      movements[i] in RecentMovements(movements, sevenDaysAgo)
    ensures forall m :: m in RecentMovements(movements, sevenDaysAgo) ==> m in movements && m.timestamp >= sevenDaysAgo
  {
    Seqs.FilterIsSubsequence(movements, (m: Movement) => m.timestamp >= sevenDaysAgo);
  }

  /**
   * When every movement is IN or OUT, stock received plus stock issued is the total
   * quantity moved in the period.
   */
  lemma ReceivedPlusIssuedIsTotal(movements: seq<Movement>, sevenDaysAgo: int)
    requires forall m :: m in movements ==> m.kind == IN || m.kind == OUT
    ensures var a := Activity(movements, sevenDaysAgo);
      a.stockReceived + a.stockIssued == Seqs.SumOf(RecentMovements(movements, sevenDaysAgo), Quantity)
  {
    var recent := RecentMovements(movements, sevenDaysAgo);
    Seqs.SumOfSplit(recent, Quantity, (m: Movement) => m.kind == IN, (m: Movement) => m.kind == OUT);
  }

  /** One row of the category breakdown without its money figure. */
  datatype BreakdownEntry = BreakdownEntry(name: string, productCount: nat, totalQuantity: int)

  function ProductQuantity(p: Product): int {
    p.quantity
  }

  /** The figures for one category: its products and their total quantity. */
  function EntryFor(category: Category, products: seq<Product>): BreakdownEntry {
    var mine := Seqs.Filter(products, (p: Product) => p.categoryId == category.id);
    BreakdownEntry(category.name, |mine|, Seqs.SumOf(mine, ProductQuantity))
  }

  function AllEntries(categories: seq<Category>, products: seq<Product>): (r: seq<BreakdownEntry>)
    ensures |r| == |categories|
    ensures forall i :: 0 <= i < |r| ==> r[i] == EntryFor(categories[i], products)
  {
    seq(|categories|, i requires 0 <= i < |categories| => EntryFor(categories[i], products))
  }

  /** `categoryBreakdown`: one entry per category, in category order, for the categories that have products. */
  function CategoryBreakdown(categories: seq<Category>, products: seq<Product>): (r: seq<BreakdownEntry>)
    ensures |r| <= |categories|
    ensures forall i :: 0 <= i < |r| ==> r[i].productCount > 0
  {
    Seqs.Filter(AllEntries(categories, products), (e: BreakdownEntry) => e.productCount > 0)
  }

  /**
   * Every breakdown entry belongs to some category and counts that category's
   * products and sums their quantities; the entries keep the category order.
   */
  lemma BreakdownEntriesDescribeTheirCategory(categories: seq<Category>, products: seq<Product>)
    ensures Seqs.IsSubsequence(CategoryBreakdown(categories, products), AllEntries(categories, products))
    ensures forall e :: e in CategoryBreakdown(categories, products) ==>
      exists k :: 0 <= k < |categories| && e == EntryFor(categories[k], products)
  {
    Seqs.FilterIsSubsequence(AllEntries(categories, products), (e: BreakdownEntry) => e.productCount > 0);
  }

  /** A category with at least one product appears in the breakdown. */
  lemma CategoriesWithProductsAppear(categories: seq<Category>, products: seq<Product>, k: nat)
    requires k < |categories|
    requires exists j :: 0 <= j < |products| && products[j].categoryId == categories[k].id
    ensures EntryFor(categories[k], products) in CategoryBreakdown(categories, products)
  {
    var j :| 0 <= j < |products| && products[j].categoryId == categories[k].id;
    var mine := Seqs.Filter(products, (p: Product) => p.categoryId == categories[k].id);
    assert products[j] in mine;
    assert AllEntries(categories, products)[k] == EntryFor(categories[k], products);
  }
}
