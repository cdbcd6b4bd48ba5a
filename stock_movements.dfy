/**
 * The stock movements page (src/components/pages/StockMovements.jsx): movements
 * joined with their product's name and SKU, sorted newest first in place, then
 * narrowed by the search, type and date filters one after the other. The date
 * filter's cutoffs ("today", "week", "month") come from the clock and are
 * passed in.
 */
module StockMovements {
  import opened Wrappers
  import opened Records
  import opened Text
  import Seqs
  import Sorting

  /** `{...movement, productName, productSku}`. */
  datatype MovementRow = MovementRow(movement: Movement, productName: string, productSku: string)

  /** The instants the date filter compares with: midnight today, seven days ago, one month ago. */
  datatype Cutoffs = Cutoffs(startOfToday: int, weekAgo: int, monthAgo: int)

  /** `products.find(p => p.Id === movement.productId)`, then `Name || 'Unknown Product'` and `sku || 'N/A'`. */
  function JoinProduct(movement: Movement, products: seq<Product>): (row: MovementRow)
    ensures row.movement == movement
    ensures forall i ::
      (0 <= i < |products| && products[i].id == movement.productId
        && (forall j :: 0 <= j < i ==> products[j].id != movement.productId)) ==>
        row.productName == (if products[i].name != "" then products[i].name else "Unknown Product")
        && row.productSku == (if products[i].sku != "" then products[i].sku else "N/A")
  {
    match Seqs.Find(products, (p: Product) => p.id == movement.productId)
    case Some(p) =>
      MovementRow(movement, if p.name != "" then p.name else "Unknown Product", if p.sku != "" then p.sku else "N/A")
    case None => MovementRow(movement, "Unknown Product", "N/A")
  }

  /** A movement whose product is not loaded is shown as 'Unknown Product' with SKU 'N/A'. */
  lemma UnknownProductLabels(movement: Movement, products: seq<Product>)
    requires forall j :: 0 <= j < |products| ==> products[j].id != movement.productId
    ensures JoinProduct(movement, products) == MovementRow(movement, "Unknown Product", "N/A")
  {
  }

  /** `movementsData.map(...)`: one row per movement, in the same order. */
  function JoinProducts(movements: seq<Movement>, products: seq<Product>): (rows: seq<MovementRow>)
    ensures |rows| == |movements|
    ensures forall i :: 0 <= i < |rows| ==> rows[i] == JoinProduct(movements[i], products)
  {
    seq(|movements|, i requires 0 <= i < |movements| => JoinProduct(movements[i], products))
  }

  function TimestampKey(row: MovementRow): Sorting.SortKey {
    Sorting.NumKey(row.movement.timestamp as real)
  }

  /** No movement is older than one after it. */
  predicate NewestFirst(rows: seq<MovementRow>) {
    forall i, j :: 0 <= i < j < |rows| ==> rows[i].movement.timestamp >= rows[j].movement.timestamp
  }

  /** Sorting by timestamp in descending order is exactly newest first. */
  lemma DescendingTimestampsAreNewestFirst(rows: seq<MovementRow>)
    ensures Sorting.SortedBy(rows, TimestampKey, Sorting.Desc) <==> NewestFirst(rows)
  {
  }

  function AtInstant(t: int): MovementRow -> bool {
    (r: MovementRow) => r.movement.timestamp == t
  }

  /** The rows stamped with instant `t`, in their order in `rows`. */
  function RowsAt(rows: seq<MovementRow>, t: int): seq<MovementRow> {
    Seqs.Filter(rows, AtInstant(t))
  }

  /** The rows whose sort key ties with instant `t` are the rows stamped `t`. */
  lemma TiesAreRowsAt(rows: seq<MovementRow>, t: int)
    ensures Sorting.Ties(rows, TimestampKey, Sorting.NumKey(t as real)) == RowsAt(rows, t)
  {
    var hasKey := Sorting.HasKey(TimestampKey, Sorting.NumKey(t as real));
    forall r | r in rows
      ensures hasKey(r) == AtInstant(t)(r)
    {
      assert hasKey(r) == (TimestampKey(r) == Sorting.NumKey(t as real));
    }
    Seqs.FilterExtensional(rows, hasKey, AtInstant(t));
  }

  /**
   * `loadData` after the fetch: the joined rows are sorted in place with the
   * comparator `b.timestamp - a.timestamp`. The result holds every joined row
   * once, no movement is older than any later one, and the comparator's 0 for
   * equal timestamps leaves rows of the same instant in their joined order.
   */
  method LoadMovements(movements: seq<Movement>, products: seq<Product>) returns (rows: seq<MovementRow>)
    ensures |rows| == |movements|
    ensures multiset(rows) == multiset(JoinProducts(movements, products))
    ensures NewestFirst(rows)
    ensures forall t :: RowsAt(rows, t) == RowsAt(JoinProducts(movements, products), t)
  {
    var joined := JoinProducts(movements, products);
    var a := new MovementRow[|joined|](i requires 0 <= i < |joined| => joined[i]);
    assert a[..] == joined;
    Sorting.SortInPlace(a, TimestampKey, Sorting.Desc);
    rows := a[..];
    DescendingTimestampsAreNewestFirst(rows);
    assert |multiset(rows)| == |multiset(joined)|;
    forall t
      ensures RowsAt(rows, t) == RowsAt(joined, t)
    {
      TiesAreRowsAt(rows, t);
      TiesAreRowsAt(joined, t);
    }
  }

  /**
   * Movements that all happened at the same instant come out of the load in the
   * order they were fetched: the sort moves none of them.
   */
  lemma SameInstantKeepsFetchedOrder(rows: seq<MovementRow>, joined: seq<MovementRow>, t: int)
    requires forall i :: 0 <= i < |joined| ==> joined[i].movement.timestamp == t
    requires multiset(rows) == multiset(joined)
    requires RowsAt(rows, t) == RowsAt(joined, t)
    ensures rows == joined
  {
    Seqs.FilterAll(joined, AtInstant(t));
    forall r | r in rows
      ensures AtInstant(t)(r)
    {
      assert r in multiset(joined);
    }
    Seqs.FilterAll(rows, AtInstant(t));
  }

  /** The search text occurs, lower-cased, in the product name, the SKU or the reason. */
  predicate MatchesSearch(row: MovementRow, searchQuery: string) {
    var q := Lower(searchQuery);
    Contains(Lower(row.productName), q) || Contains(Lower(row.productSku), q) || Contains(Lower(row.movement.reason), q)
  }

  /** The `switch (dateFilter)`: a cutoff for the three known periods, none (`filterDate = null`) otherwise. */
  function DateCutoff(dateFilter: string, cutoffs: Cutoffs): (r: Option<int>)
    ensures r.Some? <==> dateFilter in {"today", "week", "month"}
  {
    if dateFilter == "today" then Some(cutoffs.startOfToday)
    else if dateFilter == "week" then Some(cutoffs.weekAgo)
    else if dateFilter == "month" then Some(cutoffs.monthAgo)
    else None
  }

  predicate MatchesDate(row: MovementRow, cutoff: int) {
    row.movement.timestamp >= cutoff
  }

  /** What the filter effect keeps: every active filter agrees. */
  predicate Keeps(row: MovementRow, searchQuery: string, typeFilter: string, dateFilter: string, cutoffs: Cutoffs) {
    var cutoff := DateCutoff(dateFilter, cutoffs);
    && (searchQuery == "" || MatchesSearch(row, searchQuery))
    && (typeFilter == "all" || row.movement.kind == typeFilter)
    && (dateFilter == "all" || cutoff.None? || MatchesDate(row, cutoff.value))
  }

  /**
   * The filter effect: `filtered` starts as the loaded rows and each active filter
   * narrows it. The result is the rows that pass all filters, in their order, so
   * it stays newest first.
   */
  method FilterMovements(rows: seq<MovementRow>, searchQuery: string, typeFilter: string, dateFilter: string, cutoffs: Cutoffs)
    returns (filtered: seq<MovementRow>)
    ensures filtered == Seqs.Filter(rows, (r: MovementRow) => Keeps(r, searchQuery, typeFilter, dateFilter, cutoffs))
    ensures Seqs.IsSubsequence(filtered, rows)
    ensures NewestFirst(rows) ==> NewestFirst(filtered)
  {
    ghost var k0 := (r: MovementRow) => true;
    ghost var k1 := (r: MovementRow) => k0(r) && (searchQuery == "" || MatchesSearch(r, searchQuery));
    ghost var k2 := (r: MovementRow) => k1(r) && (typeFilter == "all" || r.movement.kind == typeFilter);
    Seqs.FilterAll(rows, k0);

    filtered := rows;
    if searchQuery != "" {
      filtered := Seqs.Filter(filtered, (r: MovementRow) => MatchesSearch(r, searchQuery));
    }
    Seqs.FilterStage(rows, k0, searchQuery != "", (r: MovementRow) => MatchesSearch(r, searchQuery), k1);

    if typeFilter != "all" {
      filtered := Seqs.Filter(filtered, (r: MovementRow) => r.movement.kind == typeFilter);
    }
    Seqs.FilterStage(rows, k1, typeFilter != "all", (r: MovementRow) => r.movement.kind == typeFilter, k2);

    var filterDate := None;
    if dateFilter != "all" {
      filterDate := DateCutoff(dateFilter, cutoffs);
    }
    ghost var k3 := (r: MovementRow) => k2(r) && (filterDate.None? || MatchesDate(r, filterDate.value));
    if filterDate.Some? {
      filtered := Seqs.Filter(filtered, (r: MovementRow) => MatchesDate(r, filterDate.value));
    }
    Seqs.FilterStage(rows, k2, filterDate.Some?, (r: MovementRow) => filterDate.Some? && MatchesDate(r, filterDate.value), k3);
    if filterDate.Some? {
      Seqs.FilterExtensional(Seqs.Filter(rows, k2), (r: MovementRow) => MatchesDate(r, filterDate.value),
        (r: MovementRow) => filterDate.Some? && MatchesDate(r, filterDate.value));
    }

    ghost var keep := (r: MovementRow) => Keeps(r, searchQuery, typeFilter, dateFilter, cutoffs);
    Seqs.FilterExtensional(rows, k3, keep);
    Seqs.FilterIsSubsequence(rows, keep);
    if NewestFirst(rows) {
      DescendingTimestampsAreNewestFirst(rows);
      Sorting.FilterKeepsSorted(rows, keep, TimestampKey, Sorting.Desc);
      DescendingTimestampsAreNewestFirst(filtered);
    }
  }

  /** The type filter on 'IN' or 'OUT' keeps exactly the movements of that type; 'all' keeps every one. */
  lemma TypeFilterKeepsThatType(row: MovementRow, typeFilter: string, cutoffs: Cutoffs)
    ensures Keeps(row, "", typeFilter, "all", cutoffs) <==> typeFilter == "all" || row.movement.kind == typeFilter
  {
  }

  /**
   * A date filter keeps exactly the movements at or after its cutoff; 'all' and
   * any value other than the three periods keep every movement.
   */
  lemma DateFilterKeepsFromCutoff(row: MovementRow, dateFilter: string, cutoffs: Cutoffs)
    ensures dateFilter == "week" ==> (Keeps(row, "", "all", dateFilter, cutoffs) <==> row.movement.timestamp >= cutoffs.weekAgo)
    ensures dateFilter == "today" ==> (Keeps(row, "", "all", dateFilter, cutoffs) <==> row.movement.timestamp >= cutoffs.startOfToday)
    ensures dateFilter == "month" ==> (Keeps(row, "", "all", dateFilter, cutoffs) <==> row.movement.timestamp >= cutoffs.monthAgo)
    ensures dateFilter !in {"today", "week", "month"} ==> Keeps(row, "", "all", dateFilter, cutoffs)
  {
  }
}
