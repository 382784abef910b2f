/** The contact form: its four fields, the per-field error messages, the
    digit-only mobile input, and the submit that validates, refuses empty
    fields and resets the form after the store accepted the message. */
module Contact {
  import opened Wrappers
  import opened Text
  import opened Validation

  datatype Field = Name | Email | Mobile | Message

  datatype FormData = FormData(name: string, email: string, mobile: string, message: string)

  const EmptyForm: FormData := FormData("", "", "", "")
  const EmailError: string := "Please enter a valid email address."
  const MobileError: string := "Please enter a valid 10-digit mobile number."

  function Get(f: FormData, field: Field): string {
    match field
    case Name => f.name
    case Email => f.email
    case Mobile => f.mobile
    case Message => f.message
  }

  /** `{ ...formData, [name]: value }`. */
  function Set(f: FormData, field: Field, value: string): (r: FormData)
    ensures Get(r, field) == value
    ensures forall g :: g != field ==> Get(r, g) == Get(f, g)
  {
    match field
    case Name => f.(name := value)
    case Email => f.(email := value)
    case Mobile => f.(mobile := value)
    case Message => f.(message := value)
  }

  /** `validateForm`: an e-mail error exactly when the e-mail fails the
      shape check, a mobile error exactly when the mobile is not ten digits,
      and no other key. */
  method ValidateForm(f: FormData) returns (errs: map<Field, string>)
    ensures Email in errs <==> !IsEmailShape(f.email)
    ensures Mobile in errs <==> !IsValidMobile(f.mobile)
    ensures errs.Keys <= {Email, Mobile}
    ensures Email in errs ==> errs[Email] == EmailError
    ensures Mobile in errs ==> errs[Mobile] == MobileError
  {
    EmailRegexMeansShape(f.email);
    errs := map[];
    if !IsValidEmail(f.email) {
      errs := errs[Email := EmailError];
    }
    if !IsValidMobile(f.mobile) {
      errs := errs[Mobile := MobileError];
    }
  }

  /** The mobile input refuses any non-empty value with a non-digit. */
  predicate Accepts(field: Field, value: string) {
    field != Mobile || value == "" || AllDigits(value)
  }

  /** A form that passes validation has a non-empty e-mail and mobile, so
      the later empty-field check can only stop it for the name or the
      message. */
  lemma ValidFormOnlyMissesNameOrMessage(f: FormData)
    requires IsEmailShape(f.email) && IsValidMobile(f.mobile)
    ensures f.email != "" && f.mobile != ""
  {
  }

  /** "12345" is too short for a mobile number. */
  lemma ShortMobileRejected()
    ensures !IsValidMobile("12345")
    ensures IsValidMobile("9876543210")
  {
  }

  class ContactForm {
    var formData: FormData
    var errors: map<Field, string>
    var isSubmitted: bool

    /** The mobile field only ever holds digits. */
    ghost predicate Valid()
      reads this
    {
      AllDigits(formData.mobile)
    }

    constructor ()
      ensures formData == EmptyForm && errors == map[] && !isSubmitted
      ensures Valid()
    {
      formData := EmptyForm;
      errors := map[];
      isSubmitted := false;
    }

    /** Typing into a field. A refused mobile value changes nothing;
        otherwise the field takes the value and its own error, when one is
        shown, is blanked; no other error changes. */
    method HandleChange(field: Field, value: string)
      requires Valid()
      modifies this
      ensures Valid()
      ensures !Accepts(field, value) ==> formData == old(formData) && errors == old(errors)
      ensures Accepts(field, value) ==> formData == Set(old(formData), field, value)
      ensures Accepts(field, value) && field in old(errors) && old(errors)[field] != "" ==>
        errors == old(errors)[field := ""]
      ensures Accepts(field, value) && (field !in old(errors) || old(errors)[field] == "") ==>
        errors == old(errors)
      ensures isSubmitted == old(isSubmitted)
    {
      if field == Mobile && value != "" && !AllDigits(value) {
        return;
      }
      formData := Set(formData, field, value);
      if field in errors && errors[field] != "" {
        errors := errors[field := ""];
      }
    }

    /** A submit. `stored` is the store's answer to the write. The result is
        the message handed to the store, if any: only a form that passes
        validation and has all four fields filled in is written. Errors are
        recorded when validation fails; after an accepted write the form is
        emptied and the confirmation shows. */
    method HandleSubmit(stored: bool) returns (written: Option<FormData>)
      requires Valid()
      modifies this
      ensures Valid()
      ensures written.Some? <==>
        IsEmailShape(old(formData).email) && IsValidMobile(old(formData).mobile) &&
        old(formData).name != "" && old(formData).message != ""
      ensures written.Some? ==> written.value == old(formData)
      ensures !(IsEmailShape(old(formData).email) && IsValidMobile(old(formData).mobile)) ==>
        formData == old(formData) && errors != map[] && isSubmitted == old(isSubmitted) &&
        (Email in errors <==> !IsEmailShape(old(formData).email)) &&
        (Mobile in errors <==> !IsValidMobile(old(formData).mobile)) &&
        errors.Keys <= {Email, Mobile} &&
        (Email in errors ==> errors[Email] == EmailError) &&
        (Mobile in errors ==> errors[Mobile] == MobileError)
      ensures written.Some? && stored ==> formData == EmptyForm && errors == map[] && isSubmitted
      ensures !(written.Some? && stored) && IsEmailShape(old(formData).email) && IsValidMobile(old(formData).mobile) ==>
        formData == old(formData) && errors == old(errors) && isSubmitted == old(isSubmitted)
    {
      var validation := ValidateForm(formData);
      if |validation| > 0 {
        errors := validation;
        return None;
      }
      assert Email !in validation && Mobile !in validation;
      if formData.name == "" || formData.email == "" || formData.mobile == "" || formData.message == "" {
        return None;
      }
      written := Some(formData);
      if stored {
        isSubmitted := true;
        formData := EmptyForm;
        errors := map[];
      }
    }

    /** The three-second timer after a successful submit. */
    method ConfirmationTimerFires()
      modifies this
      ensures !isSubmitted && formData == old(formData) && errors == old(errors)
    {
      isSubmitted := false;
    }
  }
}
