/**
 * The categories page (src/components/pages/Categories.jsx): the per-category
 * product count joined onto each category, the search box, and the guard in
 * front of a delete.
 */
module Categories {
  import opened Text
  import opened Records
  import Seqs

  /** A category with its `productCount`. */
  datatype CategoryRow = CategoryRow(category: Category, productCount: nat)

  /** The products filed under a category: `productsData.filter(p => p.categoryId === category.Id)`. */
  function ProductsOf(products: seq<Product>, category: Category): seq<Product> {
    Seqs.Filter(products, (p: Product) => p.categoryId == category.id)
  }

  /** `categoriesWithCounts`: every category, in order, with the number of products filed under it. */
  function WithCounts(categories: seq<Category>, products: seq<Product>): (r: seq<CategoryRow>)
    ensures |r| == |categories|
    ensures forall i :: 0 <= i < |r| ==>
      r[i].category == categories[i] && r[i].productCount == |ProductsOf(products, categories[i])|
  {
    seq(|categories|, i requires 0 <= i < |categories| =>
      CategoryRow(categories[i], |ProductsOf(products, categories[i])|))
  }

  /** A category no product points at has a count of zero, and one that some product points at does not. */
  lemma CountIsZeroIffUnused(products: seq<Product>, category: Category)
    ensures |ProductsOf(products, category)| == 0 <==>
      forall j :: 0 <= j < |products| ==> products[j].categoryId != category.id
  {
    var r := ProductsOf(products, category);
    if |r| > 0 {
      assert r[0] in products;
    }
  }

  /** The name or description, lowercased, contains the lowercased query. */
  predicate MatchesSearch(row: CategoryRow, searchQuery: string) {
    Contains(Lower(row.category.name), Lower(searchQuery))
      || Contains(Lower(row.category.description), Lower(searchQuery))
  }

  /** The search effect: the whole list for an empty query, otherwise the matching categories. */
  function Search(rows: seq<CategoryRow>, searchQuery: string): (r: seq<CategoryRow>)
    ensures searchQuery == "" ==> r == rows
    ensures Seqs.IsSubsequence(r, rows)
    ensures searchQuery != "" ==> forall i :: 0 <= i < |r| ==> MatchesSearch(r[i], searchQuery)
    ensures searchQuery != "" ==>
      forall i :: 0 <= i < |rows| && MatchesSearch(rows[i], searchQuery) ==> rows[i] in r
  {
    if searchQuery != "" then
      var r := Seqs.Filter(rows, (row: CategoryRow) => MatchesSearch(row, searchQuery));
      Seqs.FilterIsSubsequence(rows, (row: CategoryRow) => MatchesSearch(row, searchQuery));
      r
    else
      Seqs.FilterAll(rows, (row: CategoryRow) => true);
      Seqs.FilterIsSubsequence(rows, (row: CategoryRow) => true);
      rows
  }

  /** The search ignores letter case: a query and its lowercase form select the same categories. */
  lemma SearchIgnoresCase(rows: seq<CategoryRow>, searchQuery: string)
    ensures Search(rows, searchQuery) == Search(rows, Lower(searchQuery))
  {
    LowerIdempotent(searchQuery);
    if searchQuery != "" {
      assert Lower(searchQuery) != "" by { assert |Lower(searchQuery)| == |searchQuery|; }
      Seqs.FilterExtensional(rows,
        (row: CategoryRow) => MatchesSearch(row, searchQuery),
        (row: CategoryRow) => MatchesSearch(row, Lower(searchQuery)));
    }
  }

  /** Searching for a category's own name keeps that category. */
  lemma SearchForNameKeepsCategory(rows: seq<CategoryRow>, i: nat)
    requires i < |rows|
    ensures rows[i] in Search(rows, rows[i].category.name)
  {
    ContainsBasics(Lower(rows[i].category.name), Lower(rows[i].category.name));
  }

  /** What `handleDelete` ends in. */
  datatype DeleteOutcome =
    | Refused    // "Cannot delete category with products", no service call
    | Cancelled  // the confirmation was declined
    | Delete(categoryId: nat)

  /** The guard runs before the confirmation: a category in use is never deleted, whatever the user answers. */
  function HandleDelete(row: CategoryRow, confirmed: bool): (r: DeleteOutcome)
    ensures r.Refused? <==> row.productCount > 0
    ensures r.Delete? <==> row.productCount == 0 && confirmed
    ensures r.Delete? ==> r.categoryId == row.category.id
  {
    if row.productCount > 0 then Refused
    else if confirmed then Delete(row.category.id)
    else Cancelled
  }

  /** A category is deleted only when no loaded product is filed under it. */
  lemma DeletedCategoryIsUnused(categories: seq<Category>, products: seq<Product>, i: nat, confirmed: bool)
    requires i < |categories|
    requires HandleDelete(WithCounts(categories, products)[i], confirmed).Delete?
    ensures forall j :: 0 <= j < |products| ==> products[j].categoryId != categories[i].id
  {
    CountIsZeroIffUnused(products, categories[i]);
  }
}
