/**
 * The products page (src/components/pages/Products.jsx): products joined with
 * their category names, the search / status / category filters applied one
 * after the other, and the confirmed delete.
 */
module Products {
  import opened Wrappers
  import opened Records
  import opened Text
  import Seqs
  import StatusBadge

  /** `{...product, category}`: a product with the name of its category. */
  datatype ProductRow = ProductRow(product: Product, category: string)

  /** `categories.find(c => c.Id === id)?.name || 'Uncategorized'`. */
  function CategoryName(categories: seq<Category>, id: int): string {
    match Seqs.Find(categories, (c: Category) => c.id == id)
    case Some(c) => if c.name != "" then c.name else "Uncategorized"
    case None => "Uncategorized"
  }

  /** The name comes from the first category with a matching id, when that name is not empty. */
  lemma CategoryNameIsFirstMatch(categories: seq<Category>, id: int, k: nat)
    requires k < |categories| && categories[k].id == id
    requires forall j :: 0 <= j < k ==> categories[j].id != id
    ensures CategoryName(categories, id) == if categories[k].name != "" then categories[k].name else "Uncategorized"
  {
    var p := (c: Category) => c.id == id;
    var i := Seqs.FindIndex(categories, p);
    assert i.Some? by {
      assert p(categories[k]);
    }
    assert i.value == k;
  }

  /** Without a matching category the product is labelled 'Uncategorized'. */
  lemma CategoryNameWhenMissing(categories: seq<Category>, id: int)
    requires forall j :: 0 <= j < |categories| ==> categories[j].id != id
    ensures CategoryName(categories, id) == "Uncategorized"
  {
  }

  /** `loadData`'s `productsData.map(...)`: one row per product, in the same order. */
  function JoinCategories(products: seq<Product>, categories: seq<Category>): (rows: seq<ProductRow>)
    ensures |rows| == |products|
    ensures forall i :: 0 <= i < |rows| ==> rows[i].product == products[i]
    ensures forall i :: 0 <= i < |rows| ==> rows[i].category == CategoryName(categories, products[i].categoryId)
  {
    seq(|products|, i requires 0 <= i < |products| => ProductRow(products[i], CategoryName(categories, products[i].categoryId)))
  }

  /** The search text occurs, lower-cased, in the name, the SKU or the category name. */
  predicate MatchesSearch(row: ProductRow, searchQuery: string) {
    var q := Lower(searchQuery);
    Contains(Lower(row.product.name), q) || Contains(Lower(row.product.sku), q) || Contains(Lower(row.category), q)
  }

  /** The status filter's callback; an unknown filter value keeps everything. */
  predicate MatchesStatus(row: ProductRow, statusFilter: string) {
    var p := row.product;
    if statusFilter == "in-stock" then p.quantity > p.reorderPoint
    else if statusFilter == "low-stock" then p.quantity <= p.reorderPoint && p.quantity > 0
    else if statusFilter == "out-of-stock" then p.quantity == 0
    else true
  }

  /** `product.categoryId === parseInt(categoryFilter)`; `NaN` equals nothing. */
  predicate MatchesCategory(row: ProductRow, categoryFilter: string) {
    ParseInt(categoryFilter) == Some(row.product.categoryId)
  }

  /** What the filter effect keeps: every active filter agrees. */
  predicate Keeps(row: ProductRow, searchQuery: string, statusFilter: string, categoryFilter: string) {
    && (searchQuery == "" || MatchesSearch(row, searchQuery))
    && (statusFilter == "all" || MatchesStatus(row, statusFilter))
    && (categoryFilter == "all" || MatchesCategory(row, categoryFilter))
  }

  /**
   * The filter effect: `filtered` starts as all products and each active filter
   * narrows it. The result is the products that pass all of them, in their order.
   */
  method FilterProducts(products: seq<ProductRow>, searchQuery: string, statusFilter: string, categoryFilter: string)
    returns (filtered: seq<ProductRow>)
    ensures filtered == Seqs.Filter(products, (r: ProductRow) => Keeps(r, searchQuery, statusFilter, categoryFilter))
    ensures Seqs.IsSubsequence(filtered, products)
  {
    ghost var k0 := (r: ProductRow) => true;
    ghost var k1 := (r: ProductRow) => k0(r) && (searchQuery == "" || MatchesSearch(r, searchQuery));
    ghost var k2 := (r: ProductRow) => k1(r) && (statusFilter == "all" || MatchesStatus(r, statusFilter));
    ghost var k3 := (r: ProductRow) => k2(r) && (categoryFilter == "all" || MatchesCategory(r, categoryFilter));
    Seqs.FilterAll(products, k0);

    filtered := products;
    if searchQuery != "" {
      filtered := Seqs.Filter(filtered, (r: ProductRow) => MatchesSearch(r, searchQuery));
    }
    Seqs.FilterStage(products, k0, searchQuery != "", (r: ProductRow) => MatchesSearch(r, searchQuery), k1);

    if statusFilter != "all" {
      filtered := Seqs.Filter(filtered, (r: ProductRow) => MatchesStatus(r, statusFilter));
    }
    Seqs.FilterStage(products, k1, statusFilter != "all", (r: ProductRow) => MatchesStatus(r, statusFilter), k2);

    if categoryFilter != "all" {
      filtered := Seqs.Filter(filtered, (r: ProductRow) => MatchesCategory(r, categoryFilter));
    }
    Seqs.FilterStage(products, k2, categoryFilter != "all", (r: ProductRow) => MatchesCategory(r, categoryFilter), k3);

    Seqs.FilterExtensional(products, k3, (r: ProductRow) => Keeps(r, searchQuery, statusFilter, categoryFilter));
    Seqs.FilterIsSubsequence(products, (r: ProductRow) => Keeps(r, searchQuery, statusFilter, categoryFilter));
  }

  /** With an empty search and both selects on 'all', every product is listed. */
  lemma NoFilterKeepsAll(products: seq<ProductRow>)
    ensures Seqs.Filter(products, (r: ProductRow) => Keeps(r, "", "all", "all")) == products
  {
    Seqs.FilterAll(products, (r: ProductRow) => Keeps(r, "", "all", "all"));
  }

  /** Selecting a category's option (its id rendered as text) keeps exactly that category's products. */
  lemma CategoryOptionKeepsItsProducts(row: ProductRow, id: nat)
    ensures Keeps(row, "", "all", DecimalString(id)) <==> row.product.categoryId == id
  {
    ParseIntDecimalString(id);
    assert DecimalString(id) != "all" by {
      assert IsDigit(DecimalString(id)[0]);
    }
  }

  /**
   * For a quantity and a reorder point of zero or more the three status filters
   * split the products in the same way as the badge does.
   */
  lemma StatusFiltersAgreeWithBadge(row: ProductRow)
    requires row.product.quantity >= 0 && row.product.reorderPoint >= 0
    ensures var p := row.product;
      var b := StatusBadge.GetStatus(p.quantity, p.reorderPoint);
      && (MatchesStatus(row, "out-of-stock") <==> b == StatusBadge.OutOfStockBadge)
      && (MatchesStatus(row, "low-stock") <==> b == StatusBadge.LowStockBadge)
      && (MatchesStatus(row, "in-stock") <==> b == StatusBadge.InStockBadge)
  {
  }

  /**
   * Where the copies disagree: a negative quantity at or below the reorder point
   * shows a Low Stock badge, yet none of the three status filters keeps it.
   */
  lemma NegativeQuantityIsInNoStatus(row: ProductRow)
    requires row.product.quantity < 0 && row.product.quantity <= row.product.reorderPoint
    ensures StatusBadge.GetStatus(row.product.quantity, row.product.reorderPoint) == StatusBadge.LowStockBadge
    ensures !MatchesStatus(row, "in-stock") && !MatchesStatus(row, "low-stock") && !MatchesStatus(row, "out-of-stock")
  {
  }

  /** Where they disagree again: with a negative reorder point a zero quantity passes both 'in-stock' and 'out-of-stock'. */
  lemma ZeroQuantityBelowNegativeReorderPoint(row: ProductRow)
    requires row.product.quantity == 0 && row.product.reorderPoint < 0
    ensures MatchesStatus(row, "in-stock") && MatchesStatus(row, "out-of-stock")
    ensures StatusBadge.GetStatus(0, row.product.reorderPoint) == StatusBadge.OutOfStockBadge
  {
  }

  /** `handleDelete`: the id handed to `productService.delete` after the user confirms, nothing otherwise. */
  function DeleteRequest(row: ProductRow, confirmed: bool): (r: Option<nat>)
    ensures r.Some? <==> confirmed
    ensures r.Some? ==> r.value == row.product.id
  {
    if confirmed then Some(row.product.id) else None
  }
}
