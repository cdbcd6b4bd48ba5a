/**
 * The add-product form (src/components/organisms/AddProductModal.jsx): its
 * eight text fields, the field-to-message error map that `validateForm` fills,
 * the record `handleSubmit` hands to the product service, and the reset.
 * Every field holds the raw text of its input.
 */
module AddProductModal {
  import opened Wrappers
  import opened Text

  datatype ProductField =
    | Name | Sku | Description | CategoryId | Quantity | ReorderPoint | CostPrice | SellingPrice

  datatype ProductForm = ProductForm(
    name: string,
    sku: string,
    description: string,
    categoryId: string,
    quantity: string,
    reorderPoint: string,
    costPrice: string,
    sellingPrice: string)

  /** The initial and the reset form: every field empty. */
  const EmptyForm := ProductForm("", "", "", "", "", "", "", "")

  function Get(form: ProductForm, field: ProductField): string {
    match field
    case Name => form.name
    case Sku => form.sku
    case Description => form.description
    case CategoryId => form.categoryId
    case Quantity => form.quantity
    case ReorderPoint => form.reorderPoint
    case CostPrice => form.costPrice
    case SellingPrice => form.sellingPrice
  }

  /** `{ ...prev, [field]: value }`: that one field replaced, the others kept. */
  function Set(form: ProductForm, field: ProductField, value: string): (r: ProductForm)
    ensures Get(r, field) == value
    ensures forall g :: g != field ==> Get(r, g) == Get(form, g)
  {
    match field
    case Name => form.(name := value)
    case Sku => form.(sku := value)
    case Description => form.(description := value)
    case CategoryId => form.(categoryId := value)
    case Quantity => form.(quantity := value)
    case ReorderPoint => form.(reorderPoint := value)
    case CostPrice => form.(costPrice := value)
    case SellingPrice => form.(sellingPrice := value)
  }

  /** `!s || s < 0`: empty, or text that converts to a negative number. */
  predicate MissingOrNegative(s: string) {
    s == "" || LessThanZero(s)
  }

  /** `!s || s <= 0`: empty, or text that converts to a number that is not positive. */
  predicate MissingOrNotPositive(s: string) {
    s == "" || AtMostZero(s)
  }

  /** The message `validateForm` records for one field, if any. */
  function FieldError(form: ProductForm, field: ProductField): Option<string> {
    match field
    case Name => if IsBlank(form.name) then Some("Product name is required") else None
    case Sku => if IsBlank(form.sku) then Some("SKU is required") else None
    case Description => None
    case CategoryId => if form.categoryId == "" then Some("Category is required") else None
    case Quantity => if MissingOrNegative(form.quantity) then Some("Valid quantity is required") else None
    case ReorderPoint =>
      if MissingOrNegative(form.reorderPoint) then Some("Valid reorder point is required") else None
    case CostPrice => if MissingOrNotPositive(form.costPrice) then Some("Valid cost price is required") else None
    case SellingPrice =>
      if MissingOrNotPositive(form.sellingPrice) then Some("Valid selling price is required") else None
  }

  predicate IsValid(form: ProductForm) {
    forall f :: FieldError(form, f).None?
  }

  /** A name or SKU is rejected exactly when it has no character other than whitespace. */
  lemma BlankNameRule(form: ProductForm)
    ensures FieldError(form, Name).Some? <==> forall i :: 0 <= i < |form.name| ==> IsSpace(form.name[i])
    ensures FieldError(form, Sku).Some? <==> forall i :: 0 <= i < |form.sku| ==> IsSpace(form.sku[i])
  {
    IsBlankIffAllSpace(form.name);
    IsBlankIffAllSpace(form.sku);
  }

  /** On the rendering of an integer, the quantity and reorder point rules accept exactly the non-negative ones. */
  lemma CountRuleOnIntegers(form: ProductForm, n: int)
    ensures FieldError(form.(quantity := DecimalString(n)), Quantity).None? <==> n >= 0
    ensures FieldError(form.(reorderPoint := DecimalString(n)), ReorderPoint).None? <==> n >= 0
  {
    ToNumberDecimalString(n);
    assert DecimalString(n) != "";
  }

  /** On the rendering of an integer, the price rules accept exactly the positive ones. */
  lemma PriceRuleOnIntegers(form: ProductForm, n: int)
    ensures FieldError(form.(costPrice := DecimalString(n)), CostPrice).None? <==> n > 0
    ensures FieldError(form.(sellingPrice := DecimalString(n)), SellingPrice).None? <==> n > 0
  {
    ToNumberDecimalString(n);
    assert DecimalString(n) != "";
  }

  /**
   * Whitespace typed into the quantity passes the rule (it converts to 0) but
   * `parseInt` then finds no number in it.
   */
  lemma WhitespaceQuantityPassesUnparsed(form: ProductForm)
    requires form.quantity == " "
    ensures FieldError(form, Quantity).None?
    ensures ParseInt(form.quantity) == None
  {
    assert IsBlank(form.quantity) by { IsBlankIffAllSpace(form.quantity); }
    TrimStartOfBlank(form.quantity);
  }

  /** The record handed to `productService.create`; `None` stands for `NaN`. */
  datatype NewProduct = NewProduct(
    name: string,
    sku: string,
    description: string,
    categoryId: Option<int>,
    quantity: Option<int>,
    reorderPoint: Option<int>,
    unitPrice: Option<real>)

  /** `productData`: trimmed texts, the integers `parseInt` reads, and the selling price as the unit price. */
  function ProductData(form: ProductForm): NewProduct {
    NewProduct(
      Trim(form.name),
      Trim(form.sku),
      Trim(form.description),
      ParseInt(form.categoryId),
      ParseInt(form.quantity),
      ParseInt(form.reorderPoint),
      ParseFloat(form.sellingPrice))
  }

  /** The cost price is checked but never sent: changing it cannot change the record. */
  lemma CostPriceIsNotSent(form: ProductForm, costPrice: string)
    ensures ProductData(form.(costPrice := costPrice)) == ProductData(form)
  {
  }

  /** A valid form sends a name and an SKU that are not empty. */
  lemma {:induction false} ValidFormSendsNames(form: ProductForm)
    requires IsValid(form)
    ensures ProductData(form).name != "" && ProductData(form).sku != ""
  {
    assert FieldError(form, Name).None? && FieldError(form, Sku).None?;
  }

  /** A form filled from a category option and integer renderings sends those numbers back. */
  lemma IntegerFieldsRoundTrip(form: ProductForm, categoryId: int, quantity: int, reorderPoint: int, price: int)
    requires form.categoryId == DecimalString(categoryId)
    requires form.quantity == DecimalString(quantity) && form.reorderPoint == DecimalString(reorderPoint)
    requires form.sellingPrice == DecimalString(price)
    ensures ProductData(form).categoryId == Some(categoryId)
    ensures ProductData(form).quantity == Some(quantity)
    ensures ProductData(form).reorderPoint == Some(reorderPoint)
    ensures ProductData(form).unitPrice == Some(price as real)
  {
    ParseIntDecimalString(categoryId);
    ParseIntDecimalString(quantity);
    ParseIntDecimalString(reorderPoint);
    ParseFloatDecimalString(price);
  }

  /** The message map holds `field`'s message exactly when its rule fails. */
  predicate Agrees(errors: map<ProductField, string>, form: ProductForm, field: ProductField) {
    (field in errors <==> FieldError(form, field).Some?)
    && (field in errors ==> errors[field] == FieldError(form, field).value)
  }

  /** The position of a field's check in `validateForm` (the description has none and comes first). */
  function CheckOrder(f: ProductField): nat {
    match f
    case Description => 0
    case Name => 1
    case Sku => 2
    case CategoryId => 3
    case Quantity => 4
    case ReorderPoint => 5
    case CostPrice => 6
    case SellingPrice => 7
  }

  /** The map agrees with the rules on the fields checked before step `k` and holds no other field. */
  predicate AgreesBefore(errors: map<ProductField, string>, form: ProductForm, k: nat) {
    forall f :: (CheckOrder(f) < k ==> Agrees(errors, form, f)) && (f in errors ==> CheckOrder(f) < k)
  }

  /** One check of `validateForm` keeps the map in agreement with the rules on the fields checked so far. */
  lemma RecordRule(
    before: map<ProductField, string>, after: map<ProductField, string>, form: ProductForm,
    field: ProductField, fails: bool, message: string)
    requires AgreesBefore(before, form, CheckOrder(field))
    requires fails <==> FieldError(form, field).Some?
    requires fails ==> message == FieldError(form, field).value
    requires after == if fails then before[field := message] else before
    ensures AgreesBefore(after, form, CheckOrder(field) + 1)
  {
  }

  /** After the last check the map agrees with the rules on every field. */
  lemma AllChecksRecorded(errors: map<ProductField, string>, form: ProductForm)
    requires AgreesBefore(errors, form, 8)
    ensures forall f :: Agrees(errors, form, f)
  {
    forall f
      ensures Agrees(errors, form, f)
    {
      assert CheckOrder(f) < 8;
    }
  }

  /**
   * `newErrors` as `validateForm` builds it, one check after another: the map
   * holds a message for exactly the fields whose rule fails, that rule's message.
   */
  method CollectErrors(form: ProductForm) returns (newErrors: map<ProductField, string>)
    ensures forall f :: Agrees(newErrors, form, f)
  {
    newErrors := map[];
    ghost var before := newErrors;
    if IsBlank(form.name) {
      newErrors := newErrors[Name := "Product name is required"];
    }
    RecordRule(before, newErrors, form, Name, IsBlank(form.name), "Product name is required");
    before := newErrors;
    if IsBlank(form.sku) {
      newErrors := newErrors[Sku := "SKU is required"];
    }
    RecordRule(before, newErrors, form, Sku, IsBlank(form.sku), "SKU is required");
    before := newErrors;
    if form.categoryId == "" {
      newErrors := newErrors[CategoryId := "Category is required"];
    }
    RecordRule(before, newErrors, form, CategoryId, form.categoryId == "", "Category is required");
    before := newErrors;
    if MissingOrNegative(form.quantity) {
      newErrors := newErrors[Quantity := "Valid quantity is required"];
    }
    RecordRule(before, newErrors, form, Quantity, MissingOrNegative(form.quantity), "Valid quantity is required");
    before := newErrors;
    if MissingOrNegative(form.reorderPoint) {
      newErrors := newErrors[ReorderPoint := "Valid reorder point is required"];
    }
    RecordRule(before, newErrors, form, ReorderPoint, MissingOrNegative(form.reorderPoint), "Valid reorder point is required");
    before := newErrors;
    if MissingOrNotPositive(form.costPrice) {
      newErrors := newErrors[CostPrice := "Valid cost price is required"];
    }
    RecordRule(before, newErrors, form, CostPrice, MissingOrNotPositive(form.costPrice), "Valid cost price is required");
    before := newErrors;
    if MissingOrNotPositive(form.sellingPrice) {
      newErrors := newErrors[SellingPrice := "Valid selling price is required"];
    }
    RecordRule(before, newErrors, form, SellingPrice, MissingOrNotPositive(form.sellingPrice), "Valid selling price is required");
    AllChecksRecorded(newErrors, form);
  }

  /** The form's state: `formData`, `errors` and `loading`. */
  class ProductFormState {
    var formData: ProductForm
    var errors: map<ProductField, string>
    var loading: bool

    constructor ()
      ensures formData == EmptyForm && errors == map[] && !loading
    {
      formData := EmptyForm;
      errors := map[];
      loading := false;
    }

    /** Sets one field; a truthy message on that field is replaced by "", every other message is kept. */
    method HandleInputChange(field: ProductField, value: string)
      modifies this
      ensures formData == Set(old(formData), field, value)
      ensures field in old(errors) && old(errors)[field] != "" ==> errors == old(errors)[field := ""]
      ensures !(field in old(errors) && old(errors)[field] != "") ==> errors == old(errors)
      ensures loading == old(loading)
    {
      formData := Set(formData, field, value);
      if field in errors && errors[field] != "" {
        errors := errors[field := ""];
      }
    }

    /**
     * `validateForm`: records the messages of the failing rules and answers
     * whether there were none.
     */
    method ValidateForm() returns (valid: bool)
      modifies this
      ensures forall f :: Agrees(errors, formData, f)
      ensures valid <==> errors == map[]
      ensures valid <==> IsValid(formData)
      ensures formData == old(formData) && loading == old(loading)
    {
      var newErrors := CollectErrors(formData);
      errors := newErrors;
      valid := |newErrors| == 0;
      if valid {
        assert newErrors == map[];
        forall f
          ensures FieldError(formData, f).None?
        {
          assert Agrees(newErrors, formData, f);
        }
      } else {
        var f :| f in newErrors;
        assert Agrees(newErrors, formData, f);
      }
    }

    /** `handleClose`: the empty form and no messages; `loading` is not touched. */
    method HandleClose()
      modifies this
      ensures formData == EmptyForm && errors == map[]
      ensures loading == old(loading)
    {
      formData := EmptyForm;
      errors := map[];
    }

    /**
     * `handleSubmit`, with `createSucceeds` the service's outcome. An invalid
     * form sends nothing and keeps its text; a valid one sends `ProductData` of
     * the text; a successful create resets the form. Loading ends either way.
     */
    method HandleSubmit(createSucceeds: bool) returns (sent: Option<NewProduct>)
      modifies this
      ensures sent.Some? <==> IsValid(old(formData))
      ensures sent.Some? ==> sent.value == ProductData(old(formData))
      ensures sent.Some? && createSucceeds ==> formData == EmptyForm && errors == map[]
      ensures !(sent.Some? && createSucceeds) ==> formData == old(formData)
      ensures sent.None? ==> forall f :: Agrees(errors, old(formData), f)
      ensures sent.Some? ==> errors == map[]
      ensures sent.None? ==> loading == old(loading)
      ensures sent.Some? ==> !loading
    {
      var valid := ValidateForm();
      if !valid {
        return None;
      }
      loading := true;
      sent := Some(ProductData(formData));
      if createSucceeds {
        HandleClose();
      }
      loading := false;
    }
  }
}
