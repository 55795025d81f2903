/**
 * The client-side contact form: the same field rules as the endpoint, applied
 * before anything is sent, plus the form's own state (field values, a hidden
 * honeypot field, inline errors and the submission status).
 */
module ContactForm {
  import opened Wrappers
  import opened Strings
  import opened ContactRoute

  /** The inputs of the form, named as their `name` attributes. */
  datatype Field = NameField | EmailField | CompanyField | MessageField

  /** The four values of the form. */
  datatype FormData = FormData(name: string, email: string, company: string, message: string)

  datatype FormStatus = Idle | Submitting | Succeeded | Failed

  /** The client's wording for a malformed address; every other message is the endpoint's. */
  const EMAIL_INVALID_CLIENT := "Please enter a valid email."

  /** The value of one input. */
  function Get(d: FormData, f: Field): string {
    match f
    case NameField => d.name
    case EmailField => d.email
    case CompanyField => d.company
    case MessageField => d.message
  }

  /** `{ ...prev, [name]: value }`. */
  function With(d: FormData, f: Field, value: string): (r: FormData)
    ensures Get(r, f) == value
    ensures forall g | g != f :: Get(r, g) == Get(d, g)
  {
    match f
    case NameField => d.(name := value)
    case EmailField => d.(email := value)
    case CompanyField => d.(company := value)
    case MessageField => d.(message := value)
  }

  /** `errors[name]`: the error shown under an input; the company input never has one. */
  function ErrorOf(e: FieldErrors, f: Field): Option<string> {
    match f
    case NameField => e.name
    case EmailField => e.email
    case CompanyField => None
    case MessageField => e.message
  }

  /** `{ ...prev, [name]: undefined }`. */
  function Cleared(e: FieldErrors, f: Field): (r: FieldErrors)
    ensures ErrorOf(r, f) == None
    ensures forall g | g != f :: ErrorOf(r, g) == ErrorOf(e, g)
  {
    match f
    case NameField => e.(name := None)
    case EmailField => e.(email := None)
    case CompanyField => e
    case MessageField => e.(message := None)
  }

  /**
   * The client-side rules (`validate`): a blank name or message is required,
   * and an email is required when blank and invalid when it has the wrong shape.
   */
  function Validate(d: FormData): (errors: FieldErrors)
    ensures errors.name.Some? <==> IsBlank(d.name)
    ensures errors.message.Some? <==> IsBlank(d.message)
    ensures errors.email == Some(EMAIL_REQUIRED) <==> IsBlank(d.email)
    ensures errors.email == Some(EMAIL_INVALID_CLIENT) <==> !IsBlank(d.email) && !IsValidEmail(d.email)
    ensures errors.email.None? <==> !IsBlank(d.email) && IsValidEmail(d.email)
    ensures errors.name.Some? ==> errors.name.value == NAME_REQUIRED
    ensures errors.message.Some? ==> errors.message.value == MESSAGE_REQUIRED
  {
    FieldErrors(
      if IsBlank(d.name) then Some(NAME_REQUIRED) else None,
      if IsBlank(d.email) then Some(EMAIL_REQUIRED)
      else if !IsValidEmail(d.email) then Some(EMAIL_INVALID_CLIENT)
      else None,
      if IsBlank(d.message) then Some(MESSAGE_REQUIRED) else None)
  }

  /** The JSON the form posts: `JSON.stringify(form)`, every member present. */
  function PayloadOf(d: FormData): (p: Payload)
    ensures p.name == Some(d.name) && p.email == Some(d.email)
    ensures p.company == Some(d.company) && p.message == Some(d.message)
  {
    Payload(Some(d.name), Some(d.email), Some(d.company), Some(d.message))
  }

  /** The client flags exactly the fields the endpoint flags; only the malformed-address wording differs. */
  lemma ValidateAgreesWithEndpoint(d: FormData)
    ensures Validate(d).name == Errors(PayloadOf(d)).name
    ensures Validate(d).message == Errors(PayloadOf(d)).message
    ensures Validate(d).email == Some(EMAIL_REQUIRED) <==> Errors(PayloadOf(d)).email == Some(EMAIL_REQUIRED)
    ensures Validate(d).email == Some(EMAIL_INVALID_CLIENT) <==> Errors(PayloadOf(d)).email == Some(EMAIL_INVALID)
    ensures Validate(d).email.None? <==> Errors(PayloadOf(d)).email.None?
    ensures Validate(d).IsEmpty() <==> Errors(PayloadOf(d)).IsEmpty()
  {
  }

  /** What the form lets through, the endpoint accepts and records. */
  lemma ValidFormIsAccepted(d: FormData)
    requires Validate(d).IsEmpty()
    ensures Post(Json(PayloadOf(d))).status == 200
    ensures Post(Json(PayloadOf(d))).record == Some(ContactRecord(Trim(d.name), d.email, Trim(d.company), Trim(d.message)))
  {
    ValidateAgreesWithEndpoint(d);
    AcceptedEmailIsTrimmed(d.email);
  }

  /** The company never affects validation. */
  lemma CompanyIsNeverValidated(d: FormData, company: string)
    ensures Validate(d.(company := company)) == Validate(d)
  {
  }

  /** The state of one form on the page. */
  class Form {
    var form: FormData
    var honeypot: string
    var errors: FieldErrors
    var status: FormStatus

    /** Everything empty, no errors, idle. */
    constructor ()
      ensures form == FormData("", "", "", "") && honeypot == ""
      ensures errors == FieldErrors(None, None, None) && status == Idle
    {
      form := FormData("", "", "", "");
      honeypot := "";
      errors := FieldErrors(None, None, None);
      status := Idle;
    }

    /** `handleChange`: store the new value and clear that input's error, if one is shown. */
    method HandleChange(f: Field, value: string)
      modifies this
      ensures form == With(old(form), f, value)
      ensures var shown := ErrorOf(old(errors), f);
        errors == if shown.Some? && shown.value != "" then Cleared(old(errors), f) else old(errors)
      ensures forall g | g != f :: ErrorOf(errors, g) == ErrorOf(old(errors), g)
      ensures honeypot == old(honeypot) && status == old(status)
    {
      form := With(form, f, value);
      var shown := ErrorOf(errors, f);
      if shown.Some? && shown.value != "" {
        errors := Cleared(errors, f);
      }
    }

    /** The honeypot input's change handler. */
    method HandleHoneypotChange(value: string)
      modifies this
      ensures honeypot == value
      ensures form == old(form) && errors == old(errors) && status == old(status)
    {
      honeypot := value;
    }

    /**
     * `handleSubmit`. `responseOk` stands for the network: whether `fetch`
     * resolved with an ok response. Returns the body posted (if any) and the
     * statuses set during the call, in order.
     */
    method HandleSubmit(responseOk: bool) returns (posted: Option<FormData>, statuses: seq<FormStatus>)
      modifies this
      ensures form == old(form) && honeypot == old(honeypot)
      ensures old(honeypot) != "" ==>
        posted == None && statuses == [] && errors == old(errors) && status == old(status)
      ensures old(honeypot) == "" && !Validate(form).IsEmpty() ==>
        posted == None && statuses == [] && errors == Validate(form) && status == old(status)
      ensures old(honeypot) == "" && Validate(form).IsEmpty() ==>
        && posted == Some(form) && errors == old(errors)
        && statuses == [Submitting, if responseOk then Succeeded else Failed]
        && status == statuses[1]
    {
      posted, statuses := None, [];
      if honeypot != "" {
        return;
      }
      var validationErrors := Validate(form);
      if !validationErrors.IsEmpty() {
        errors := validationErrors;
        return;
      }
      status := Submitting;
      statuses := [status];
      posted := Some(form);
      if responseOk {
        status := Succeeded;
      } else {
        status := Failed;
      }
      statuses := statuses + [status];
    }
  }
}
