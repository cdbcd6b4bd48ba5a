/**
 * The add/edit company form (src/components/organisms/AddCompanyModal.jsx):
 * the reset when it opens, the field edits, the two required fields, the choice
 * between create and update, and the close guard while a save is in flight.
 * The save is split at its `await` into a step that issues the request and a
 * step that handles the answer.
 */
module AddCompanyModal {
  import opened Wrappers
  import opened Text
  import opened Records

  datatype CompanyField = NameC | AddressC | IndustryC | TagsC

  /** `formData`: `name_c`, `address_c`, `industry_c`, `Tags`. */
  datatype CompanyForm = CompanyForm(name: string, address: string, industry: string, tags: string)

  const BlankForm := CompanyForm("", "", "", "")

  function Get(form: CompanyForm, field: CompanyField): string {
    match field
    case NameC => form.name
    case AddressC => form.address
    case IndustryC => form.industry
    case TagsC => form.tags
  }

  /** `{ ...prev, [name]: value }`. */
  function Set(form: CompanyForm, field: CompanyField, value: string): (r: CompanyForm)
    ensures Get(r, field) == value
    ensures forall g :: g != field ==> Get(r, g) == Get(form, g)
  {
    match field
    case NameC => form.(name := value)
    case AddressC => form.(address := value)
    case IndustryC => form.(industry := value)
    case TagsC => form.(tags := value)
  }

  /** The form an opening shows: the edited company's fields with "" for missing ones, or a blank form. */
  function InitialForm(company: Option<Company>): (r: CompanyForm)
    ensures company.None? ==> r == BlankForm
    ensures company.Some? ==>
      && r.name == OrEmpty(company.value.name) && r.address == OrEmpty(company.value.address)
      && r.industry == OrEmpty(company.value.industry) && r.tags == OrEmpty(company.value.tags)
  {
    match company
    case None => BlankForm
    case Some(c) => CompanyForm(OrEmpty(c.name), OrEmpty(c.address), OrEmpty(c.industry), OrEmpty(c.tags))
  }

  /** The message `validateForm` records for one field, if any. */
  function FieldError(form: CompanyForm, field: CompanyField): Option<string> {
    match field
    case NameC => if IsBlank(form.name) then Some("Company name is required") else None
    case IndustryC => if IsBlank(form.industry) then Some("Industry is required") else None
    case AddressC => None
    case TagsC => None
  }

  predicate IsValid(form: CompanyForm) {
    !IsBlank(form.name) && !IsBlank(form.industry)
  }

  /** Valid means every field's rule passes, and only the name and industry have rules. */
  lemma ValidMeansNoFieldError(form: CompanyForm)
    ensures IsValid(form) <==> forall f :: FieldError(form, f).None?
  {
    if !IsValid(form) {
      assert FieldError(form, NameC).Some? || FieldError(form, IndustryC).Some?;
    }
  }

  /** The request `handleSubmit` issues: update of the edited company, or create. */
  datatype SaveRequest = Create(form: CompanyForm) | Update(id: nat, form: CompanyForm)

  /** `isEditing ? update(company.Id, formData) : create(formData)`: the form is sent as typed. */
  function RequestFor(company: Option<Company>, form: CompanyForm): (r: SaveRequest)
    ensures r.form == form
    ensures r.Update? <==> company.Some?
    ensures r.Update? ==> r.id == company.value.id
  {
    match company
    case Some(c) => Update(c.id, form)
    case None => Create(form)
  }

  /**
   * The checks trim, but the request carries the text untrimmed: a padded
   * name passes and is sent with its padding.
   */
  lemma PaddedNameIsSentPadded(company: Option<Company>)
    ensures var form := CompanyForm(" Acme ", "", "Retail", "");
      IsValid(form) && RequestFor(company, form).form.name == " Acme "
  {
    var form := CompanyForm(" Acme ", "", "Retail", "");
    assert form.name[1] == 'A' && !IsSpace(form.name[1]);
    assert form.industry[0] == 'R';
    IsBlankIffAllSpace(form.name);
    IsBlankIffAllSpace(form.industry);
  }

  /** The form's state: `formData`, `errors`, `loading`, and the `company` prop it was opened with. */
  class CompanyFormState {
    var formData: CompanyForm
    var errors: map<CompanyField, string>
    var loading: bool
    var company: Option<Company>

    constructor ()
      ensures formData == BlankForm && errors == map[] && !loading && company == None
    {
      formData := BlankForm;
      errors := map[];
      loading := false;
      company := None;
    }

    /** The effect when the form opens (or its company changes while open): reset the fields and errors. */
    method Open(edited: Option<Company>)
      modifies this
      ensures company == edited
      ensures formData == InitialForm(edited) && errors == map[]
      ensures loading == old(loading)
    {
      company := edited;
      formData := InitialForm(edited);
      errors := map[];
    }

    /** Sets one field; a truthy message on that field is replaced by "", every other message is kept. */
    method HandleChange(field: CompanyField, value: string)
      modifies this
      ensures formData == Set(old(formData), field, value)
      ensures field in old(errors) && old(errors)[field] != "" ==> errors == old(errors)[field := ""]
      ensures !(field in old(errors) && old(errors)[field] != "") ==> errors == old(errors)
      ensures loading == old(loading) && company == old(company)
    {
      formData := Set(formData, field, value);
      if field in errors && errors[field] != "" {
        errors := errors[field := ""];
      }
    }

    /** `validateForm`: a message for exactly the failing rules; valid exactly when there is none. */
    method ValidateForm() returns (valid: bool)
      modifies this
      ensures forall f :: f in errors <==> FieldError(formData, f).Some?
      ensures forall f :: f in errors ==> errors[f] == FieldError(formData, f).value
      ensures valid <==> errors == map[]
      ensures valid <==> IsValid(formData)
      ensures formData == old(formData) && loading == old(loading) && company == old(company)
    {
      var newErrors: map<CompanyField, string> := map[];
      if IsBlank(formData.name) {
        newErrors := newErrors[NameC := "Company name is required"];
      }
      if IsBlank(formData.industry) {
        newErrors := newErrors[IndustryC := "Industry is required"];
      }
      errors := newErrors;
      valid := |newErrors| == 0;
      if !valid {
        var f :| f in newErrors;
      } else {
        assert newErrors == map[];
      }
    }

    /**
     * `handleSubmit` up to its `await`: an invalid form issues nothing; a valid
     * one starts loading and issues the request for the form as typed.
     */
    method SubmitBegin() returns (request: Option<SaveRequest>)
      modifies this
      ensures request.Some? <==> IsValid(old(formData))
      ensures request.Some? ==> request.value == RequestFor(company, formData) && loading
      ensures request.None? ==> loading == old(loading)
      ensures forall f :: f in errors <==> FieldError(old(formData), f).Some?
      ensures forall f :: f in errors ==> errors[f] == FieldError(old(formData), f).value
      ensures formData == old(formData) && company == old(company)
    {
      var valid := ValidateForm();
      if !valid {
        return None;
      }
      loading := true;
      request := Some(RequestFor(company, formData));
    }

    /**
     * `handleSubmit` after the service answers (`resultTruthy` is false for
     * `null` and for a thrown error): `onSuccess` fires only for a result, and
     * loading ends either way.
     */
    method SubmitFinish(resultTruthy: bool) returns (callsOnSuccess: bool)
      modifies this
      ensures callsOnSuccess == resultTruthy
      ensures !loading
      ensures formData == old(formData) && errors == old(errors) && company == old(company)
    {
      callsOnSuccess := resultTruthy;
      loading := false;
    }

    /** `handleClose`: the form asks to close only when no save is in flight; nothing else changes. */
    method HandleClose() returns (callsOnClose: bool)
      ensures callsOnClose == !loading
    {
      callsOnClose := !loading;
    }
  }

  /** While a save started by `SubmitBegin` is in flight the form cannot be closed. */
  method CannotCloseWhileSaving(state: CompanyFormState) returns (closes: bool)
    modifies state
    requires IsValid(state.formData)
    ensures !closes
  {
    var request := state.SubmitBegin();
    closes := state.HandleClose();
  }
}
