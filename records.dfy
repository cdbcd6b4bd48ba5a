/**
 * The records the dashboard loads from its record store. Only the fields the
 * modelled logic reads are kept; identifiers are natural numbers and
 * timestamps are integers (larger is later).
 */
module Records {
  import opened Wrappers

  /** A product row (`Name`, `sku`, `categoryId`, `quantity`, `reorderPoint`, `unitPrice`). */
  datatype Product = Product(
    id: nat,
    name: string,
    sku: string,
    categoryId: int,
    quantity: int,
    reorderPoint: int,
    unitPrice: real)

  /** A category row (`name`, `description`). */
  datatype Category = Category(id: nat, name: string, description: string)

  /** A stock movement row; `kind` is the `type` column, "IN" or "OUT" when written by this app. */
  datatype Movement = Movement(
    id: nat,
    productId: int,
    kind: string,
    quantity: int,
    reason: string,
    notes: string,
    timestamp: int)

  const IN := "IN"
  const OUT := "OUT"

  /** A company row; `name_c`, `address_c`, `industry_c` and `Tags` may be missing. */
  datatype Company = Company(
    id: nat,
    name: Option<string>,
    address: Option<string>,
    industry: Option<string>,
    tags: Option<string>)

  /** A notification row (`message_c`, `status_c`). */
  datatype Notification = Notification(id: nat, message: string, status: string)

  /** `value || ''` for an optional text field: missing and empty both read as "". */
  function OrEmpty(value: Option<string>): (r: string)
    ensures value.Some? ==> r == value.value
    ensures value.None? ==> r == ""
  {
    value.GetOr("")
  }
}
