/**
 * The stock adjustment form (src/components/organisms/StockAdjustmentModal.jsx):
 * the reasons offered for each adjustment type, the guard on submit, the
 * signed delta and the movement record built from the entered text, the single
 * append to the record store, and the reset on close.
 */
module StockAdjustmentModal {
  import opened Wrappers
  import opened Text
  import opened Records

  datatype AdjustmentType = Add | Remove

  /** The `reasons` table: the choices the reason drop-down offers for each type. */
  function Reasons(t: AdjustmentType): seq<string> {
    match t
    case Add => ["Restock", "Purchase", "Return", "Adjustment", "Other"]
    case Remove => ["Sale", "Damage", "Loss", "Transfer", "Adjustment", "Other"]
  }

  /** Five reasons for adding, six for removing; 'Adjustment' and 'Other' are offered for both. */
  lemma ReasonsTable()
    ensures |Reasons(Add)| == 5 && |Reasons(Remove)| == 6
    ensures forall r :: r in Reasons(Add) && r in Reasons(Remove) <==> r == "Adjustment" || r == "Other"
  {
    assert Reasons(Add)[3] == "Adjustment" && Reasons(Add)[4] == "Other";
    assert Reasons(Remove)[4] == "Adjustment" && Reasons(Remove)[5] == "Other";
  }

  /** `!quantity || !reason` fails: both texts are non-empty. */
  predicate GuardPasses(quantity: string, reason: string) {
    quantity != "" && reason != ""
  }

  /** `type: adjustmentType === 'add' ? 'IN' : 'OUT'`. */
  function KindFor(t: AdjustmentType): (kind: string)
    ensures kind == IN <==> t == Add
    ensures kind == OUT <==> t == Remove
  {
    assert IN[0] != OUT[0];
    match t
    case Add => IN
    case Remove => OUT
  }

  /** `adjustmentQuantity`: the parsed text, negated for a removal; `None` is `NaN`. */
  function SignedQuantity(t: AdjustmentType, quantity: string): Option<int> {
    match ParseInt(quantity)
    case None => None
    case Some(n) => Some(if t == Add then n else -n)
  }

  function Abs(n: int): nat {
    if n < 0 then -n else n
  }

  /** `Math.abs(adjustmentQuantity)`. */
  function RecordedQuantity(t: AdjustmentType, quantity: string): Option<nat> {
    match SignedQuantity(t, quantity)
    case None => None
    case Some(n) => Some(Abs(n))
  }

  /** Adding and removing the same text record the same magnitude; only the delta's sign differs. */
  lemma SameMagnitudeEitherWay(quantity: string)
    ensures RecordedQuantity(Add, quantity) == RecordedQuantity(Remove, quantity)
    ensures SignedQuantity(Add, quantity).Some? <==> SignedQuantity(Remove, quantity).Some?
    ensures SignedQuantity(Add, quantity).Some? ==>
      SignedQuantity(Remove, quantity).value == -SignedQuantity(Add, quantity).value
  {
  }

  /** The rendering of a count is recorded as that count, whichever the type. */
  lemma CountIsRecorded(t: AdjustmentType, n: nat)
    ensures GuardPasses(DecimalString(n), "Other")
    ensures RecordedQuantity(t, DecimalString(n)) == Some(n)
  {
    ParseIntDecimalString(n);
    assert DecimalString(n) != "";
  }

  /** "0" is not empty, so it passes the guard and a movement of quantity 0 would be recorded. */
  lemma ZeroPassesTheGuard(t: AdjustmentType)
    ensures GuardPasses("0", "Other")
    ensures RecordedQuantity(t, "0") == Some(0)
  {
    CountIsRecorded(t, 0);
  }

  /** A negative text added records the movement as IN with the positive magnitude. */
  lemma NegativeAddIsRecordedAsIn()
    ensures RecordedQuantity(Add, "-5") == Some(5) && KindFor(Add) == IN
  {
    ParseIntDecimalString(-5);
    assert DecimalString(-5) == "-5";
  }

  /** The record passed to `stockMovementService.create`. */
  datatype MovementDraft = MovementDraft(
    productId: nat,
    kind: string,
    quantity: Option<nat>,
    reason: string,
    notes: string)

  function BuildMovement(product: Product, t: AdjustmentType, quantity: string, reason: string, notes: string): (d: MovementDraft)
    ensures d.productId == product.id && d.reason == reason && d.notes == notes
    ensures d.kind == IN <==> t == Add
    ensures d.quantity == RecordedQuantity(t, quantity)
  {
    MovementDraft(product.id, KindFor(t), RecordedQuantity(t, quantity), reason, notes)
  }

  /**
   * The record store as far as this form touches it: the products and the
   * movements; `accepted` is whether the service takes the write.
   */
  class InventoryStore {
    var products: seq<Product>
    var movements: seq<MovementDraft>

    constructor (products0: seq<Product>)
      ensures products == products0 && movements == []
    {
      products := products0;
      movements := [];
    }

    /** `stockMovementService.create`: appends the movement when accepted; the products are not written. */
    method CreateMovement(draft: MovementDraft, accepted: bool)
      modifies this
      ensures accepted ==> movements == old(movements) + [draft]
      ensures !accepted ==> movements == old(movements)
      ensures products == old(products)
    {
      if accepted {
        movements := movements + [draft];
      }
    }
  }

  /** The form's state: `adjustmentType`, `quantity`, `reason`, `notes`, `loading`. */
  class AdjustmentForm {
    var adjustmentType: AdjustmentType
    var quantity: string
    var reason: string
    var notes: string
    var loading: bool

    /** The state a reset returns to. */
    predicate IsReset()
      reads this
    {
      adjustmentType == Add && quantity == "" && reason == "" && notes == ""
    }

    constructor ()
      ensures IsReset() && !loading
    {
      adjustmentType := Add;
      quantity := "";
      reason := "";
      notes := "";
      loading := false;
    }

    /** The type buttons: the chosen reason is kept even when the new type does not offer it. */
    method SetAdjustmentType(t: AdjustmentType)
      modifies this
      ensures adjustmentType == t
      ensures quantity == old(quantity) && reason == old(reason) && notes == old(notes) && loading == old(loading)
    {
      adjustmentType := t;
    }

    method SetReason(r: string)
      modifies this
      ensures reason == r
      ensures adjustmentType == old(adjustmentType) && quantity == old(quantity)
      ensures notes == old(notes) && loading == old(loading)
    {
      reason := r;
    }

    method SetQuantity(q: string)
      modifies this
      ensures quantity == q
      ensures adjustmentType == old(adjustmentType) && reason == old(reason)
      ensures notes == old(notes) && loading == old(loading)
    {
      quantity := q;
    }

    method SetNotes(n: string)
      modifies this
      ensures notes == n
      ensures adjustmentType == old(adjustmentType) && quantity == old(quantity)
      ensures reason == old(reason) && loading == old(loading)
    {
      notes := n;
    }

    /** `handleClose`: back to the initial state; `loading` is not touched. */
    method HandleClose()
      modifies this
      ensures IsReset()
      ensures loading == old(loading)
    {
      adjustmentType := Add;
      quantity := "";
      reason := "";
      notes := "";
    }

    /**
     * `handleSubmit`. When the guard fails nothing is written and the form is
     * kept. Otherwise exactly one movement, built from the form, is offered
     * to the store; the products are never written; an accepted write resets
     * the form. Loading ends either way.
     */
    method HandleSubmit(product: Product, store: InventoryStore, accepted: bool) returns (rejected: bool)
      modifies this, store
      ensures rejected <==> !GuardPasses(old(quantity), old(reason))
      ensures store.products == old(store.products)
      ensures !rejected && accepted ==>
        store.movements == old(store.movements)
          + [BuildMovement(product, old(adjustmentType), old(quantity), old(reason), old(notes))]
      ensures !(!rejected && accepted) ==> store.movements == old(store.movements)
      ensures !rejected && accepted ==> IsReset()
      ensures !(!rejected && accepted) ==>
        adjustmentType == old(adjustmentType) && quantity == old(quantity)
        && reason == old(reason) && notes == old(notes)
      ensures rejected ==> loading == old(loading)
      ensures !rejected ==> !loading
    {
      if !GuardPasses(quantity, reason) {
        return true;
      }
      rejected := false;
      loading := true;
      var draft := BuildMovement(product, adjustmentType, quantity, reason, notes);
      store.CreateMovement(draft, accepted);
      if accepted {
        HandleClose();
      }
      loading := false;
    }
  }

  /** Closing twice leaves the form as closing once does. */
  method CloseTwice(form: AdjustmentForm)
    modifies form
    ensures form.IsReset()
    ensures form.loading == old(form.loading)
  {
    form.HandleClose();
    form.HandleClose();
  }

  /**
   * Choosing 'Sale' while removing and then switching to adding submits an IN
   * movement with the reason 'Sale', which the add list does not offer.
   */
  method ReasonIsNotRechecked(form: AdjustmentForm, store: InventoryStore, product: Product)
    modifies form, store
    ensures store.movements == old(store.movements) + [MovementDraft(product.id, IN, Some(3), "Sale", old(form.notes))]
    ensures "Sale" !in Reasons(Add)
  {
    form.SetAdjustmentType(Remove);
    form.SetReason("Sale");
    form.SetAdjustmentType(Add);
    form.SetQuantity("3");
    CountIsRecorded(Add, 3);
    assert DecimalString(3) == "3";
    var rejected := form.HandleSubmit(product, store, true);
  }
}
