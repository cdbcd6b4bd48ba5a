/**
 * The add-category form (src/components/organisms/AddCategoryModal.jsx): two
 * required fields, the trimmed record sent to the category service, and the
 * reset on close.
 */
module AddCategoryModal {
  import opened Wrappers
  import opened Text

  datatype CategoryField = NameField | DescriptionField

  datatype CategoryForm = CategoryForm(name: string, description: string)

  const EmptyForm := CategoryForm("", "")

  function Get(form: CategoryForm, field: CategoryField): string {
    match field
    case NameField => form.name
    case DescriptionField => form.description
  }

  function Set(form: CategoryForm, field: CategoryField, value: string): (r: CategoryForm)
    ensures Get(r, field) == value
    ensures forall g :: g != field ==> Get(r, g) == Get(form, g)
  {
    match field
    case NameField => form.(name := value)
    case DescriptionField => form.(description := value)
  }

  function FieldError(form: CategoryForm, field: CategoryField): Option<string> {
    match field
    case NameField => if IsBlank(form.name) then Some("Category name is required") else None
    case DescriptionField =>
      if IsBlank(form.description) then Some("Category description is required") else None
  }

  predicate IsValid(form: CategoryForm) {
    !IsBlank(form.name) && !IsBlank(form.description)
  }

  /** `categoryData`: both fields trimmed. */
  datatype CategoryData = CategoryData(name: string, description: string)

  function ToCategoryData(form: CategoryForm): CategoryData {
    CategoryData(Trim(form.name), Trim(form.description))
  }

  /** A valid form sends a name and a description that are not empty. */
  lemma ValidFormSendsText(form: CategoryForm)
    requires IsValid(form)
    ensures ToCategoryData(form).name != "" && ToCategoryData(form).description != ""
  {
  }

  /** The record is already trimmed: a form filled with it would send the same record. */
  lemma CategoryDataIsTrimmed(form: CategoryForm)
    ensures var d := ToCategoryData(form);
      ToCategoryData(CategoryForm(d.name, d.description)) == d
  {
    TrimIdempotent(form.name);
    TrimIdempotent(form.description);
  }

  /** A field fails its rule exactly when it holds only whitespace. */
  lemma BlankRule(form: CategoryForm, field: CategoryField)
    ensures FieldError(form, field).Some? <==>
      forall i :: 0 <= i < |Get(form, field)| ==> IsSpace(Get(form, field)[i])
  {
    IsBlankIffAllSpace(Get(form, field));
  }

  class CategoryFormState {
    var formData: CategoryForm
    var errors: map<CategoryField, string>
    var loading: bool

    constructor ()
      ensures formData == EmptyForm && errors == map[] && !loading
    {
      formData := EmptyForm;
      errors := map[];
      loading := false;
    }

    method HandleInputChange(field: CategoryField, value: string)
      modifies this
      ensures formData == Set(old(formData), field, value)
      ensures field in old(errors) && old(errors)[field] != "" ==> errors == old(errors)[field := ""]
      ensures !(field in old(errors) && old(errors)[field] != "") ==> errors == old(errors)
      ensures loading == old(loading)
    {
      formData := Set(formData, field, value);
      if field in errors && errors[field] != "" {
        errors := errors[field := ""];
      }
    }

    method ValidateForm() returns (valid: bool)
      modifies this
      ensures forall f :: f in errors <==> FieldError(formData, f).Some?
      ensures forall f :: f in errors ==> errors[f] == FieldError(formData, f).value
      ensures valid <==> errors == map[]
      ensures valid <==> IsValid(formData)
      ensures formData == old(formData) && loading == old(loading)
    {
      var newErrors: map<CategoryField, string> := map[];
      if IsBlank(formData.name) {
        newErrors := newErrors[NameField := "Category name is required"];
      }
      if IsBlank(formData.description) {
        newErrors := newErrors[DescriptionField := "Category description is required"];
      }
      errors := newErrors;
      valid := |newErrors| == 0;
      if !valid {
        var f :| f in newErrors;
      } else {
        assert newErrors == map[];
      }
    }

    method HandleClose()
      modifies this
      ensures formData == EmptyForm && errors == map[]
      ensures loading == old(loading)
    {
      formData := EmptyForm;
      errors := map[];
    }

    /**
     * `handleSubmit`, with `createSucceeds` the service's outcome: an invalid
     * form sends nothing; a valid one sends the trimmed record, and a successful
     * create resets the form. Loading ends either way.
     */
    method HandleSubmit(createSucceeds: bool) returns (sent: Option<CategoryData>)
      modifies this
      ensures sent.Some? <==> IsValid(old(formData))
      ensures sent.Some? ==> sent.value == ToCategoryData(old(formData))
      ensures sent.Some? && createSucceeds ==> formData == EmptyForm && errors == map[]
      ensures !(sent.Some? && createSucceeds) ==> formData == old(formData)
      ensures sent.None? ==> forall f :: f in errors <==> FieldError(old(formData), f).Some?
      ensures sent.None? ==> forall f :: f in errors ==> errors[f] == FieldError(old(formData), f).value
      ensures sent.Some? ==> errors == map[]
      ensures sent.None? ==> loading == old(loading)
      ensures sent.Some? ==> !loading
    {
      var valid := ValidateForm();
      if !valid {
        return None;
      }
      loading := true;
      sent := Some(ToCategoryData(formData));
      if createSucceeds {
        HandleClose();
      }
      loading := false;
    }
  }
}
