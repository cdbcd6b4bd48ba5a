/**
 * The product table (src/components/organisms/ProductTable.jsx): the sort
 * state its column headers drive, and the sorted copy of the rows it renders.
 */
module ProductTable {
  import opened Text
  import Products
  import Sorting

  /** The sortable columns: `'sku'`, `'name'`, `'category'`, `'quantity'`, `'unitPrice'`. */
  datatype SortField = Sku | Name | CategoryColumn | Quantity | UnitPrice

  /** `{ sortField, sortDirection }`. */
  datatype SortState = SortState(field: SortField, direction: Sorting.Direction)

  /** The initial state: by name, ascending. */
  const InitialSort := SortState(Name, Sorting.Asc)

  function Flip(d: Sorting.Direction): (r: Sorting.Direction)
    ensures r != d
  {
    if d == Sorting.Asc then Sorting.Desc else Sorting.Asc
  }

  /** `handleSort` on values: the current column flips direction, another column starts ascending. */
  function NextSort(s: SortState, field: SortField): (r: SortState)
    ensures r.field == field
    ensures field == s.field ==> r.direction != s.direction
    ensures field != s.field ==> r.direction == Sorting.Asc
  {
    if s.field == field then SortState(field, Flip(s.direction)) else SortState(field, Sorting.Asc)
  }

  /** Clicking the current column twice gives back the state it started in. */
  lemma ClickTwiceRestores(s: SortState)
    ensures NextSort(NextSort(s, s.field), s.field) == s
  {
  }

  /** Clicking a column, whatever came before, and then clicking it again sorts it descending. */
  lemma NewColumnThenAgainIsDescending(s: SortState, field: SortField)
    requires field != s.field
    ensures NextSort(NextSort(s, field), field) == SortState(field, Sorting.Desc)
  {
  }

  /** The column headers' state. */
  class SortHeaders {
    var state: SortState

    constructor ()
      ensures state == InitialSort
    {
      state := InitialSort;
    }

    method HandleSort(field: SortField)
      modifies this
      ensures state == NextSort(old(state), field)
    {
      if state.field == field {
        state := SortState(field, Flip(state.direction));
      } else {
        state := SortState(field, Sorting.Asc);
      }
    }
  }

  /**
   * `a[sortField]`, lowercased when it is a string. Rows come from the products
   * page, so the category column holds the category's name.
   */
  function Key(field: SortField, row: Products.ProductRow): Sorting.SortKey {
    match field
    case Sku => Sorting.StrKey(Lower(row.product.sku))
    case Name => Sorting.StrKey(Lower(row.product.name))
    case CategoryColumn => Sorting.StrKey(Lower(row.category))
    case Quantity => Sorting.NumKey(row.product.quantity as real)
    case UnitPrice => Sorting.NumKey(row.product.unitPrice)
  }

  /**
   * `sortedProducts`: a sorted copy of the rows. The result holds the same rows
   * and is in the chosen direction by the column's key; rows with equal keys
   * come in no particular order.
   */
  method SortedProducts(rows: seq<Products.ProductRow>, s: SortState) returns (sorted: seq<Products.ProductRow>)
    ensures multiset(sorted) == multiset(rows) && |sorted| == |rows|
    ensures forall i, j :: 0 <= i < j < |sorted| ==>
      Sorting.InOrder(Key(s.field, sorted[i]), Key(s.field, sorted[j]), s.direction)
  {
    sorted := Sorting.SortedCopy(rows, (row: Products.ProductRow) => Key(s.field, row), s.direction);
  }

  /** Two case variants of the same name sort as equals, so either may come first. */
  lemma CaseDoesNotOrderNames(a: Products.ProductRow, b: Products.ProductRow)
    requires Lower(a.product.name) == Lower(b.product.name)
    ensures Sorting.InOrder(Key(Name, a), Key(Name, b), Sorting.Asc)
    ensures Sorting.InOrder(Key(Name, b), Key(Name, a), Sorting.Asc)
  {
    Sorting.InOrderTotal(Key(Name, a), Key(Name, b), Sorting.Asc);
  }
}
