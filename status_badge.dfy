/**
 * The stock badge (src/components/molecules/StatusBadge.jsx): a three-way
 * classification of a product's quantity against its reorder point, each
 * class with a fixed badge variant, text and icon.
 */
module StatusBadge {

  datatype Badge = Badge(variant: string, text: string, icon: string)

  const OutOfStockBadge := Badge("danger", "Out of Stock", "X")
  const LowStockBadge := Badge("warning", "Low Stock", "AlertTriangle")
  const InStockBadge := Badge("success", "In Stock", "Check")

  /** `getStatus()`: out of stock at zero, low stock up to the reorder point, in stock above it. */
  function GetStatus(quantity: int, reorderPoint: int): (b: Badge)
    ensures b == OutOfStockBadge <==> quantity == 0
    ensures b == LowStockBadge <==> quantity != 0 && quantity <= reorderPoint
    ensures b == InStockBadge <==> quantity != 0 && quantity > reorderPoint
  {
    if quantity == 0 then OutOfStockBadge
    else if quantity <= reorderPoint then LowStockBadge
    else InStockBadge
  }

  /** Every (quantity, reorder point) pair gets one of the three badges, and only one. */
  lemma ExactlyOneStatus(quantity: int, reorderPoint: int)
    ensures var b := GetStatus(quantity, reorderPoint);
      b in {OutOfStockBadge, LowStockBadge, InStockBadge}
    ensures OutOfStockBadge != LowStockBadge && LowStockBadge != InStockBadge && OutOfStockBadge != InStockBadge
  {
  }

  /** A quantity of zero is out of stock whatever the reorder point. */
  lemma ZeroIsOutOfStock(reorderPoint: int)
    ensures GetStatus(0, reorderPoint) == OutOfStockBadge
    ensures GetStatus(0, reorderPoint).variant == "danger"
  {
  }

  /** The boundary is inclusive: a nonzero quantity equal to the reorder point is low stock. */
  lemma BoundaryIsLowStock(reorderPoint: int)
    requires reorderPoint != 0
    ensures GetStatus(reorderPoint, reorderPoint) == LowStockBadge
  {
  }

  /** For positive quantities, raising the quantity never takes a product from In Stock back to Low Stock. */
  lemma InStockIsUpwardClosed(q1: int, q2: int, reorderPoint: int)
    requires 0 < q1 <= q2
    requires GetStatus(q1, reorderPoint) == InStockBadge
    ensures GetStatus(q2, reorderPoint) == InStockBadge
  {
  }
}
