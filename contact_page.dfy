/**
 * The public contact page: a validated form whose errors disappear field by
 * field as the visitor corrects them, posted with `fetch`.
 */
module ContactPage {
  import opened Wrappers
  import opened Json
  import opened Text
  import opened PublicForms

  const SubmitPath := "/moox_events/api/contactus/add-queries"
  const SubmitFailed := "There was an issue with submitting your message. Please try again later."

  /**
   * The form. `countryCode` is `None` until the effect that fills in a
   * missing code has run.
   */
  datatype ContactForm = ContactForm(name: string, email: string, mobile: string, purpose: string,
                                     countryCode: Option<string>)

  /** The inputs, each named as the key of its field and of its error. */
  datatype Field = Name | Email | Mobile | Purpose

  const AllFields: set<Field> := {Name, Email, Mobile, Purpose}

  function ErrorMessage(c: Field): string {
    match c
    case Name => "Full Name is required."
    case Email => "A valid email is required."
    case Mobile => "A valid 10-digit mobile number is required."
    case Purpose => "Purpose is required."
  }

  /** The check `validateForm` applies to each field, as written. */
  predicate Fails(f: ContactForm, c: Field) {
    match c
    case Name => IsBlank(f.name)
    case Email => EmailRejected(f.email)
    case Mobile => MobileRejected(f.mobile)
    case Purpose => IsBlank(f.purpose)
  }

  /** `validateForm`: one message per failing field and nothing for the fields that pass. */
  function ContactErrors(f: ContactForm): (errs: map<Field, string>)
    ensures forall c :: c in errs <==> Fails(f, c)
    ensures forall c :: c in errs ==> errs[c] == ErrorMessage(c)
  {
    map c | c in AllFields && Fails(f, c) :: ErrorMessage(c)
  }

  /** What each reported field means. */
  lemma ContactErrorsFields(f: ContactForm)
    ensures Name in ContactErrors(f) <==> IsBlank(f.name)
    ensures Email in ContactErrors(f) <==> !MatchesEmailPattern(f.email)
    ensures Mobile in ContactErrors(f) <==> !IsTenDigits(f.mobile)
    ensures Purpose in ContactErrors(f) <==> IsBlank(f.purpose)
  {
    EmailRejectedByPattern(f.email);
    MobileRejectedByLength(f.mobile);
  }

  /** The form is sent exactly when every field passes. */
  lemma ContactErrorsEmpty(f: ContactForm)
    ensures ContactErrors(f) == map[] <==>
      !IsBlank(f.name) && MatchesEmailPattern(f.email) && IsTenDigits(f.mobile) && !IsBlank(f.purpose)
  {
    ContactErrorsFields(f);
    var errs := ContactErrors(f);
    if errs != map[] {
      var c :| c in errs;
      assert c in AllFields;
    }
  }

  /** `${formData.countryCode}`: an absent code prints as "undefined". */
  function CodeText(code: Option<string>): (t: string)
    ensures code.Some? ==> t == code.value
  {
    match code
    case None => "undefined"
    case Some(c) => c
  }

  /** The JSON body posted. */
  function ContactBody(f: ContactForm): (b: Obj)
    ensures b.Keys == {"name", "email", "mobileno", "purpose"}
    ensures b["name"] == Str(f.name) && b["email"] == Str(f.email) && b["purpose"] == Str(f.purpose)
    ensures b["mobileno"] == Str(ComposePhone(CodeText(f.countryCode), f.mobile))
  {
    map["name" := Str(f.name), "email" := Str(f.email),
        "mobileno" := Str(ComposePhone(CodeText(f.countryCode), f.mobile)), "purpose" := Str(f.purpose)]
  }

  class ContactUs {
    var formData: ContactForm
    var errors: map<Field, string>
    var successMessage: bool

    /** Every recorded error carries its field's message, which is never empty. */
    predicate ErrorsRecorded()
      reads this
    {
      forall c :: c in errors ==> errors[c] == ErrorMessage(c)
    }

    /** The code, once present, is a country code, and the mobile field holds at most ten digits. */
    predicate Valid()
      reads this
    {
      (formData.countryCode.Some? ==> IsCountryCode(formData.countryCode.value)) &&
      MobileShape(formData.mobile) && ErrorsRecorded()
    }

    constructor ()
      ensures formData == ContactForm("", "", "", "", None) && errors == map[] && !successMessage
      ensures Valid()
    {
      formData, errors, successMessage := ContactForm("", "", "", "", None), map[], false;
    }

    /** The effect after each render: a missing or empty code becomes "+91". */
    method FillCountryCode()
      modifies this
      ensures old(formData.countryCode) in {None, Some("")} ==>
        formData == old(formData).(countryCode := Some(DefaultCountryCode))
      ensures old(formData.countryCode) !in {None, Some("")} ==> formData == old(formData)
      ensures formData.countryCode.Some? && formData.countryCode.value != ""
      ensures errors == old(errors) && successMessage == old(successMessage)
      ensures old(Valid()) ==> Valid()
    {
      if formData.countryCode == None || formData.countryCode == Some("") {
        formData := formData.(countryCode := Some(DefaultCountryCode));
      }
    }

    /**
     * Removes the field's error if it has one (`if (errors[name])`): the
     * other fields' errors stay.
     */
    method ClearError(c: Field)
      modifies this
      ensures c in old(errors) && old(errors)[c] != "" ==> errors == old(errors) - {c}
      ensures !(c in old(errors) && old(errors)[c] != "") ==> errors == old(errors)
      ensures old(ErrorsRecorded()) ==> c !in errors
      ensures forall d :: d != c && d in old(errors) ==> d in errors && errors[d] == old(errors)[d]
      ensures formData == old(formData) && successMessage == old(successMessage)
      ensures old(ErrorsRecorded()) ==> ErrorsRecorded()
    {
      if c in errors && errors[c] != "" {
        errors := errors - {c};
      }
    }

    /**
     * `handleChange`: the field takes the value (the mobile field only its
     * digits) and loses its error.
     */
    method HandleChange(c: Field, value: string)
      modifies this
      ensures c == Name ==> formData == old(formData).(name := value)
      ensures c == Email ==> formData == old(formData).(email := value)
      ensures c == Mobile ==> formData == old(formData).(mobile := KeepDigits(value))
      ensures c == Purpose ==> formData == old(formData).(purpose := value)
      ensures old(ErrorsRecorded()) ==> c !in errors
      ensures forall d :: d != c && d in old(errors) ==> d in errors && errors[d] == old(errors)[d]
      ensures errors.Keys <= old(errors).Keys && successMessage == old(successMessage)
      ensures old(ErrorsRecorded()) ==> ErrorsRecorded()
    {
      match c {
        case Name => formData := formData.(name := value);
        case Email => formData := formData.(email := value);
        case Mobile => formData := formData.(mobile := KeepDigits(value));
        case Purpose => formData := formData.(purpose := value);
      }
      ClearError(c);
    }

    /**
     * The mobile input: an edit leaving more than ten digits is dropped
     * before `handleChange` sees it; otherwise the digits are stored and the
     * field's error is cleared.
     */
    method HandleMobileInput(typed: string)
      modifies this
      ensures formData == old(formData).(mobile := SanitizeMobile(old(formData.mobile), typed))
      ensures |KeepDigits(typed)| > MobileLength ==> errors == old(errors)
      ensures |KeepDigits(typed)| <= MobileLength && old(ErrorsRecorded()) ==> Mobile !in errors
      ensures forall d :: d != Mobile && d in old(errors) ==> d in errors && errors[d] == old(errors)[d]
      ensures errors.Keys <= old(errors).Keys && successMessage == old(successMessage)
      ensures old(Valid()) ==> Valid()
    {
      var digits := KeepDigits(typed);
      if |digits| <= MobileLength {
        KeepDigitsOfDigits(digits);
        HandleChange(Mobile, digits);
      }
    }

    /** `handleCCChange`: of at most five typed characters, only "+" or "+" and digits is taken. */
    method HandleCCChange(typed: string)
      modifies this
      ensures IsCountryCode(CountryCodeEntry(typed)) ==> formData == old(formData).(countryCode := Some(CountryCodeEntry(typed)))
      ensures !IsCountryCode(CountryCodeEntry(typed)) ==> formData == old(formData)
      ensures errors == old(errors) && successMessage == old(successMessage)
      ensures old(Valid()) ==> Valid()
    {
      var entry := CountryCodeEntry(typed);
      if IsCountryCode(entry) {
        formData := formData.(countryCode := Some(entry));
      }
    }

    /**
     * `handleSubmit`: an invalid form only replaces the error map. A valid
     * one clears it and posts; an ok response shows the success popup and
     * reloads the page, anything else alerts.
     */
    method HandleSubmit(ok: Reply<bool>) returns (sent: Option<Request>, alert: Option<string>, effect: Effect)
      modifies this
      ensures sent.None? <==> ContactErrors(old(formData)) != map[]
      ensures sent.None? ==> (errors == ContactErrors(old(formData)) && alert.None? &&
        successMessage == old(successMessage) && effect == Stay)
      ensures sent.Some? ==> sent.value == Post(SubmitPath, ContactBody(old(formData))) && errors == map[]
      ensures sent.Some? && ok == Ok(true) ==> successMessage && alert.None? && effect == Reload
      ensures sent.Some? && ok != Ok(true) ==>
        alert == Some(SubmitFailed) && successMessage == old(successMessage) && effect == Stay
      ensures formData == old(formData)
      ensures old(Valid()) ==> Valid()
    {
      var found := ContactErrors(formData);
      alert, effect := None, Stay;
      if found != map[] {
        errors := found;
        return None, alert, effect;
      }
      errors := map[];
      sent := Some(Post(SubmitPath, ContactBody(formData)));
      if ok == Ok(true) {
        successMessage, effect := true, Reload;
      } else {
        alert := Some(SubmitFailed);
      }
    }
  }
}
