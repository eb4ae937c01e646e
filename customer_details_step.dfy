/**
 * The customer-details form: its local copy of the five fields, its
 * per-field error messages, the validation that decides whether the
 * details may enter the wizard, and the submit and typing handlers.
 */
module CustomerDetailsStep {
  import opened OrderTypes
  import opened OrderContext
  import opened OrderProvider
  import opened TextRules

  datatype Field = Name | Surname | Phone | Email | Address

  function FieldValue(form: CustomerDetails, f: Field): string {
    match f
    case Name => form.name
    case Surname => form.surname
    case Phone => form.phone
    case Email => form.email
    case Address => form.address
  }

  /** The form with one field replaced. */
  function WithField(form: CustomerDetails, f: Field, value: string): (r: CustomerDetails)
    ensures FieldValue(r, f) == value
    ensures forall g :: g != f ==> FieldValue(r, g) == FieldValue(form, g)
  {
    match f
    case Name => form.(name := value)
    case Surname => form.(surname := value)
    case Phone => form.(phone := value)
    case Email => form.(email := value)
    case Address => form.(address := value)
  }

  function RequiredMessage(f: Field): string {
    match f
    case Name => "Name is required"
    case Surname => "Surname is required"
    case Phone => "Phone number is required"
    case Email => "Email is required"
    case Address => "Address is required"
  }

  const InvalidEmailMessage: string := "Please enter a valid email address"
  const InvalidPhoneMessage: string := "Please enter a valid South African phone number"

  /** The phone check: after all white space is removed, the pattern matches. */
  predicate PhoneIsValid(phone: string): (valid: bool)
    ensures valid ==> !IsBlank(phone)
    ensures valid ==> 10 <= |phone|
  {
    RemoveSpacesEmptyIffBlank(phone);
    MatchesPhonePattern(RemoveSpaces(phone))
  }

  /** The submit button's test: every raw field is non-empty, without trimming. */
  predicate SubmitEnabled(form: CustomerDetails) {
    form.name != "" && form.surname != "" && form.phone != "" && form.email != "" && form.address != ""
  }

  /** The details the form lets through: no field blank, the email and phone well formed. */
  predicate FormAccepted(form: CustomerDetails): (accepted: bool)
    ensures accepted ==> SubmitEnabled(form)
  {
    && !IsBlank(form.name) && !IsBlank(form.surname) && !IsBlank(form.phone)
    && !IsBlank(form.email) && !IsBlank(form.address)
    && HasEmailShape(form.email) && PhoneIsValid(form.phone)
  }

  /**
   * What the error map says about each field: a name, surname or address
   * is reported exactly when blank; an email or phone exactly when it fails
   * its pattern, with the "required" message only for the empty string and
   * the format message for anything else.
   */
  ghost predicate ReportsErrors(form: CustomerDetails, errors: map<Field, string>) {
    && ReportsIfBlank(form, errors, Name)
    && ReportsIfBlank(form, errors, Surname)
    && ReportsIfBlank(form, errors, Address)
    && (Email in errors <==> !HasEmailShape(form.email))
    && (Email in errors ==>
          errors[Email] == if form.email == "" then RequiredMessage(Email) else InvalidEmailMessage)
    && (Phone in errors <==> !PhoneIsValid(form.phone))
    && (Phone in errors ==>
          errors[Phone] == if form.phone == "" then RequiredMessage(Phone) else InvalidPhoneMessage)
  }

  /** Field `f` is reported, with its "required" message, exactly when it is blank. */
  ghost predicate ReportsIfBlank(form: CustomerDetails, errors: map<Field, string>, f: Field) {
    && (f in errors <==> IsBlank(FieldValue(form, f)))
    && (f in errors ==> errors[f] == RequiredMessage(f))
  }

  /** The description determines the error map completely. */
  lemma ReportsErrorsIsUnique(form: CustomerDetails, e1: map<Field, string>, e2: map<Field, string>)
    requires ReportsErrors(form, e1) && ReportsErrors(form, e2)
    ensures e1 == e2
  {
    forall f ensures f in e1 <==> f in e2 {
      match f
      case Name =>
      case Surname =>
      case Phone =>
      case Email =>
      case Address =>
    }
    assert e1.Keys == e2.Keys;
    forall f | f in e1 ensures e1[f] == e2[f] {
      match f
      case Name =>
      case Surname =>
      case Phone =>
      case Email =>
      case Address =>
    }
  }

  /**
   * Builds the error map by successive writes: first the "required"
   * messages for blank fields, then the format messages, which overwrite
   * an earlier entry for the same field. The map is empty exactly when the
   * form is accepted.
   */
  method CollectErrors(form: CustomerDetails) returns (newErrors: map<Field, string>)
    ensures ReportsErrors(form, newErrors)
    ensures newErrors == map[] <==> FormAccepted(form)
  {
    var nameMissing := Trim(form.name) == "";
    var surnameMissing := Trim(form.surname) == "";
    var phoneMissing := Trim(form.phone) == "";
    var emailMissing := Trim(form.email) == "";
    var addressMissing := Trim(form.address) == "";
    BlankIsNotEmail(form.email);
    if PhoneIsValid(form.phone) { PhoneMatchIsNotBlank(form.phone); }

    newErrors := map[];
    if nameMissing { newErrors := newErrors[Name := RequiredMessage(Name)]; }
    if surnameMissing { newErrors := newErrors[Surname := RequiredMessage(Surname)]; }
    if phoneMissing { newErrors := newErrors[Phone := RequiredMessage(Phone)]; }
    if emailMissing { newErrors := newErrors[Email := RequiredMessage(Email)]; }
    if addressMissing { newErrors := newErrors[Address := RequiredMessage(Address)]; }

    var emailMalformed := form.email != "" && !HasEmailShape(form.email);
    if emailMalformed {
      newErrors := newErrors[Email := InvalidEmailMessage];
    }
    var phoneMalformed := form.phone != "" && !PhoneIsValid(form.phone);
    if phoneMalformed {
      newErrors := newErrors[Phone := InvalidPhoneMessage];
    }
    ReportedErrorsEmptyIffAccepted(form, newErrors);
  }

  /** The error map is empty exactly when the form is accepted. */
  lemma ReportedErrorsEmptyIffAccepted(form: CustomerDetails, e: map<Field, string>)
    requires ReportsErrors(form, e)
    ensures e == map[] <==> FormAccepted(form)
  {
    BlankIsNotEmail(form.email);
    if PhoneIsValid(form.phone) { PhoneMatchIsNotBlank(form.phone); }
    if FormAccepted(form) {
      forall f ensures f !in e {
        match f
        case Name =>
        case Surname =>
        case Phone =>
        case Email =>
        case Address =>
      }
    }
  }

  /** A field of white space alone is reported as missing. */
  lemma WhitespaceNameIsRequired(form: CustomerDetails, errors: map<Field, string>)
    requires ReportsErrors(form, errors) && form.name == "   "
    ensures Name in errors && errors[Name] == "Name is required"
  {
  }

  /** Whatever the form accepts, the wizard's step-0 readiness check accepts too. */
  lemma AcceptedFormIsReadyForStepZero(s: OrderState, form: CustomerDetails)
    requires s.currentStep == 0 && FormAccepted(form)
    ensures CanProceedToNextStep(Reduce(s, OrderAction.SetCustomerDetails(form)))
  {
  }

  // ---------------------------------------------------------------------
  // The form component

  class CustomerForm {
    var formData: CustomerDetails
    var errors: map<Field, string>

    /** The form starts from the stored customer details, or from five empty fields. */
    constructor(stored: Option<CustomerDetails>)
      ensures formData == if stored.Some? then stored.value else CustomerDetails("", "", "", "", "")
      ensures errors == map[]
    {
      formData := if stored.Some? then stored.value else CustomerDetails("", "", "", "", "");
      errors := map[];
    }

    /** Whether the submit button is enabled. */
    function IsFormValid(): (valid: bool)
      reads this
      ensures FormAccepted(formData) ==> valid
    {
      SubmitEnabled(formData)
    }

    /** Validates the current fields, records the errors, and reports whether there were none. */
    method ValidateForm() returns (ok: bool)
      modifies this`errors
      ensures ReportsErrors(formData, errors)
      ensures ok <==> errors == map[]
      ensures ok <==> FormAccepted(formData)
    {
      var newErrors := CollectErrors(formData);
      errors := newErrors;
      ok := |newErrors| == 0;
    }

    /**
     * Submitting stores the details and advances the wizard only when
     * validation passes; otherwise the wizard state is untouched.
     */
    method HandleSubmit(store: Store)
      requires store.Valid()
      modifies this`errors, store
      ensures store.Valid()
      ensures ReportsErrors(formData, errors)
      ensures FormAccepted(formData) ==>
        store.state == Reduce(Reduce(old(store.state), OrderAction.SetCustomerDetails(formData)), OrderAction.NextStep)
      ensures !FormAccepted(formData) ==> store.state == old(store.state)
    {
      var ok := ValidateForm();
      if ok {
        store.SetCustomerDetails(formData);
        store.NextStep();
      }
    }

    /** Typing into a field replaces that field and blanks its error message if it had a non-empty one. */
    method HandleInputChange(field: Field, value: string)
      modifies this
      ensures formData == WithField(old(formData), field, value)
      ensures errors == if field in old(errors) && old(errors)[field] != ""
                        then old(errors)[field := ""] else old(errors)
    {
      formData := WithField(formData, field, value);
      if field in errors && errors[field] != "" {
        errors := errors[field := ""];
      }
    }
  }

  /** The button check is weaker than validation: every accepted form enables the button. */
  lemma AcceptedFormEnablesSubmit(form: CustomerDetails)
    requires FormAccepted(form)
    ensures SubmitEnabled(form)
  {
  }

  /** ... and strictly weaker: a form of spaces enables the button but is rejected. */
  lemma SubmitEnabledButRejected()
    ensures var form := CustomerDetails(" ", " ", " ", " ", " ");
            SubmitEnabled(form) && !FormAccepted(form)
  {
  }

  /** The button and the wizard's step-0 readiness check test the same thing. */
  lemma SubmitEnabledIsStepZeroReadiness(s: OrderState, form: CustomerDetails)
    requires s.currentStep == 0
    ensures CanProceedToNextStep(Reduce(s, OrderAction.SetCustomerDetails(form))) <==> SubmitEnabled(form)
  {
    CustomerReadiness(s, form);
  }
}
